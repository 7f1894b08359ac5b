/**
 The pipeline and its utterance buffer together (src/audio/pipeline.cpp and
 src/audio/utterance.cpp): the buffer's replies to the pipeline are no longer arbitrary.
 */
module AudioPipelineWithBuffer {
  import opened Samples
  import opened Wrappers
  import opened AudioPipelines
  import opened AudioPipelineTheorems
  import AudioPipelineGate
  import U = UtteranceBuffers

  /** `released` are the slices no consumer holds any more. */
  datatype Event = Heard(frame: Frame, released: set<nat>) | Retuned(onset: real, offset: real, hangover: nat)

  /** The pipeline, the calls its buffer has had, and the times of the starts it has published. */
  datatype World = World(pipeline: State, ops: seq<U.Op>, starts: seq<int>)

  function OpOf(e: Effect, released: set<nat>): seq<U.Op> {
    match e
    case Appended(samples) => [U.Append(samples)]
    case BufferStarted(padStart, at) => [U.Started(padStart, at)]
    case BufferEnded(at) => [U.Ended(at, released)]
    case _ => []
  }

  function OpsOf(es: seq<Effect>, released: set<nat>): seq<U.Op> {
    if es == [] then [] else OpsOf(es[..|es| - 1], released) + OpOf(es[|es| - 1], released)
  }

  function StartsOf(es: seq<Effect>): seq<int> {
    if es == [] then []
    else
      StartsOf(es[..|es| - 1]) +
      match es[|es| - 1]
      case Published(SpeechStarted(ts)) => [ts]
      case _ => []
  }

  /** The samples of a frame that come through to the buffer. */
  function Through(cfg: Config, apm: Canceller, s: State, f: Frame): seq<Sample>
    requires BlockSize(cfg) > 0
  {
    if f.muted || f.resampled == [] then [] else CancelStep(cfg, apm, s.(prevMuted := false), f).1
  }

  /** The calls the buffer has had once it was given the frame's samples. */
  function Fed(ops: seq<U.Op>, samples: seq<Sample>): seq<U.Op> {
    if samples == [] then ops else ops + [U.Append(samples)]
  }

  /** The frame with what the buffer replies: its pre-buffer, and the slice it would end with. */
  function Replied(cfg: Config, bcfg: U.Config, apm: Canceller, w: World, f: Frame, released: set<nat>): Frame
    requires BlockSize(cfg) > 0
  {
    var b := U.Run(bcfg, Fed(w.ops, Through(cfg, apm, w.pipeline, f)));
    var slice := U.OnEnded(bcfg, b, f.at, released).1;
    f.(prePad := b.preBuffer, slice := if slice.Some? then Some(slice.value.samples) else None)
  }

  function Effects(cfg: Config, bcfg: U.Config, apm: Canceller, w: World, e: Event): (State, seq<Effect>)
    requires BlockSize(cfg) > 0
  {
    match e
    case Heard(f, released) => FrameStep(cfg, apm, w.pipeline, Replied(cfg, bcfg, apm, w, f, released))
    case Retuned(onset, offset, hangover) => Step(cfg, apm, w.pipeline, Retune(onset, offset, hangover))
  }

  function Next(cfg: Config, bcfg: U.Config, apm: Canceller, w: World, e: Event): World
    requires BlockSize(cfg) > 0
  {
    var (s, es) := Effects(cfg, bcfg, apm, w, e);
    World(s, w.ops + OpsOf(es, if e.Heard? then e.released else {}), w.starts + StartsOf(es))
  }

  function RunBoth(cfg: Config, bcfg: U.Config, apm: Canceller, es: seq<Event>): World
    requires BlockSize(cfg) > 0
  {
    if es == [] then World(Initial(cfg), [], [])
    else Next(cfg, bcfg, apm, RunBoth(cfg, bcfg, apm, es[..|es| - 1]), es[|es| - 1])
  }

  // ----- the calls a frame makes -----

  lemma {:induction false} CallsConcat(a: seq<Effect>, b: seq<Effect>, released: set<nat>)
    ensures OpsOf(a + b, released) == OpsOf(a, released) + OpsOf(b, released)
    ensures StartsOf(a + b) == StartsOf(a) + StartsOf(b)
    decreases |b|
  {
    if b == [] {
      assert a + b == a;
    } else {
      hide OpOf;
      assert (a + b)[..|a + b| - 1] == a + b[..|b| - 1];
      CallsConcat(a, b[..|b| - 1], released);
      Associates(OpsOf(a, released), OpsOf(b[..|b| - 1], released), OpOf(b[|b| - 1], released));
    }
  }

  lemma OneCall(e: Effect, released: set<nat>)
    ensures OpsOf([e], released) == OpOf(e, released)
    ensures StartsOf([e]) == if e.Published? && e.event.SpeechStarted? then [e.event.ts] else []
  {
    assert [e][..0] == [];
  }

  /** Calls of the canceller and the live sink, false starts and ends are none of the buffer's. */
  lemma {:induction false} NoCalls(es: seq<Effect>, released: set<nat>)
    requires forall e | e in es ::
      e.Cancelled? || e.Streamed? || e.FalseStart? || (e.Published? && !e.event.SpeechStarted?)
    ensures OpsOf(es, released) == [] && StartsOf(es) == []
  {
    if es != [] {
      assert es[|es| - 1] in es;
      NoCalls(es[..|es| - 1], released);
    }
  }

  lemma StartedCalls(cfg: Config, x: Frame, samples: seq<Sample>, released: set<nat>)
    ensures OpsOf(OnStarted(cfg, x, samples), released) == [U.Started(x.at - cfg.prePaddingMs * NS_PER_MS, x.at)]
    ensures StartsOf(OnStarted(cfg, x, samples)) == [x.at]
  {
    var first, last := BufferStarted(x.at - cfg.prePaddingMs * NS_PER_MS, x.at), Published(SpeechStarted(x.at));
    var replay := if !cfg.liveSink then []
      else if x.prePad != [] then [Streamed(x.prePad), Streamed(samples)] else [Streamed(samples)];
    assert OnStarted(cfg, x, samples) == [first] + replay + [last];
    hide OpsOf, StartsOf, OnStarted;
    CallsConcat([first] + replay, [last], released);
    CallsConcat([first], replay, released);
    OneCall(first, released);
    OneCall(last, released);
    NoCalls(replay, released);
  }

  lemma EndedCalls(cfg: Config, x: Frame, released: set<nat>)
    ensures OpsOf(OnEnded(cfg, x), released) == [U.Ended(x.at, released)] && StartsOf(OnEnded(cfg, x)) == []
  {
    var es := OnEnded(cfg, x);
    assert es == [BufferEnded(x.at)] + es[1..];
    CallsConcat([BufferEnded(x.at)], es[1..], released);
    OneCall(BufferEnded(x.at), released);
    NoCalls(es[1..], released);
  }

  /** How the verdict on a frame moves the speech flag and calls the buffer. */
  ghost predicate JudgedCalls(cfg: Config, s: State, s1: State, x: Frame, ops: seq<U.Op>, starts: seq<int>, released: set<nat>) {
    if !s.inSpeech && s1.inSpeech then
      ops == [U.Started(x.at - cfg.prePaddingMs * NS_PER_MS, x.at)] && starts == [x.at]
    else if s.inSpeech && !s1.inSpeech then ops == [U.Ended(x.at, released)] && starts == []
    else ops == [] && starts == []
  }

  lemma JudgeCalls(cfg: Config, s: State, x: Frame, samples: seq<Sample>, released: set<nat>)
    requires cfg.rate > 0 && Agrees(s)
    ensures var (s1, es) := JudgeStep(cfg, s, x, samples);
      JudgedCalls(cfg, s, s1, x, OpsOf(es, released), StartsOf(es), released)
  {
    hide OnStarted, OnEnded, OpsOf, StartsOf;
    NoCalls([], released);
    StartedCalls(cfg, x, samples, released);
    EndedCalls(cfg, x, released);
    OneCall(FalseStart, released);
  }

  /** The wake-word gate, if there is one, was open on the last frame that came to it. */
  predicate GateOpen(cfg: Config, s: State) {
    cfg.wakeWord ==> s.gateWasOpen
  }

  lemma GateIsShutOrOpen(cfg: Config, s: State, x: Frame, samples: seq<Sample>)
    requires cfg.rate > 0
    ensures GateStep(cfg, s, x).1 <==> GateOpen(cfg, DownstreamStep(cfg, s, x, samples).0)
    ensures !GateStep(cfg, s, x).1 && GateOpen(cfg, s) ==> !DownstreamStep(cfg, s, x, samples).0.inSpeech
  {
    hide JudgeStep;
    AudioPipelineGate.JudgeGate(cfg, GateStep(cfg, s, x).0, x, samples);
  }

  /** Downstream: the append, then the verdict's calls; nothing more when the gate is shut. */
  lemma DownstreamCalls(cfg: Config, s: State, x: Frame, samples: seq<Sample>, released: set<nat>)
    requires cfg.rate > 0 && Agrees(s)
    ensures var (s1, es) := DownstreamStep(cfg, s, x, samples);
      var (g, open) := GateStep(cfg, s, x);
      if open then
        var (s2, judged) := JudgeStep(cfg, g, x, samples);
        && g.inSpeech == s.inSpeech && s1 == s2
        && OpsOf(es, released) == [U.Append(samples)] + OpsOf(judged, released) && StartsOf(es) == StartsOf(judged)
      else OpsOf(es, released) == [U.Append(samples)] && StartsOf(es) == [] && !(!s.inSpeech && s1.inSpeech)
  {
    hide JudgeStep, OpOf;
    GateFlag(cfg, s, x);
    var (g, open) := GateStep(cfg, s, x);
    OneCall(Appended(samples), released);
    assert OpOf(Appended(samples), released) == [U.Append(samples)] by {
      AppendedIsAppend(samples, released);
    }
    if open {
      var streamed := if g.inSpeech && cfg.liveSink then [Streamed(samples)] else [];
      var judged := JudgeStep(cfg, g, x, samples).1;
      CallsConcat([Appended(samples)] + streamed, judged, released);
      CallsConcat([Appended(samples)], streamed, released);
      NoCalls(streamed, released);
    }
  }

  lemma AppendedIsAppend(samples: seq<Sample>, released: set<nat>)
    ensures OpOf(Appended(samples), released) == [U.Append(samples)]
  {
  }

  /**
   What a frame calls, by how it moves the speech flag: a start and an end call the buffer
   behind the append, a mute and a shut gate leave speech without a call.
   */
  ghost predicate FrameCalls(cfg: Config, s: State, s1: State, x: Frame, samples: seq<Sample>,
                             ops: seq<U.Op>, starts: seq<int>, released: set<nat>) {
    if samples == [] then
      && ops == [] && starts == [] && s1.gateWasOpen == s.gateWasOpen
      && (s1.inSpeech ==> s.inSpeech) && (s.inSpeech && !s1.inSpeech ==> x.muted)
    else
      && !x.muted && ((s.inSpeech ==> GateOpen(cfg, s)) ==> s1.inSpeech ==> GateOpen(cfg, s1))
      && if !s.inSpeech && s1.inSpeech then
        && starts == [x.at]
        && ops == [U.Append(samples)] + [U.Started(x.at - cfg.prePaddingMs * NS_PER_MS, x.at)]
      else
        && starts == []
        && ops == [U.Append(samples)]
                  + if s.inSpeech && !s1.inSpeech && GateOpen(cfg, s1) then [U.Ended(x.at, released)] else []
  }

  lemma DownstreamFrameCalls(cfg: Config, s: State, x: Frame, samples: seq<Sample>, released: set<nat>)
    requires cfg.rate > 0 && Agrees(s) && samples != [] && !x.muted
    ensures var (s1, es) := DownstreamStep(cfg, s, x, samples);
      FrameCalls(cfg, s, s1, x, samples, OpsOf(es, released), StartsOf(es), released)
  {
    hide DownstreamStep, JudgeStep, OpsOf, StartsOf;
    GateFlag(cfg, s, x);
    DownstreamCalls(cfg, s, x, samples, released);
    JudgeCalls(cfg, GateStep(cfg, s, x).0, x, samples, released);
    GateIsShutOrOpen(cfg, s, x, samples);
    assert [U.Append(samples)] + [] == [U.Append(samples)];
  }

  lemma {:induction false} CancelledMakeNoCalls(bs: seq<seq<Sample>>, more: seq<Effect>, released: set<nat>)
    ensures OpsOf(AsCancelled(bs) + more, released) == OpsOf(more, released)
    ensures StartsOf(AsCancelled(bs) + more) == StartsOf(more)
    ensures OpsOf(AsCancelled(bs), released) == [] && StartsOf(AsCancelled(bs)) == []
  {
    CallsAreNotPublished(bs);
    NoCalls(AsCancelled(bs), released);
    CallsConcat(AsCancelled(bs), more, released);
  }

  lemma MutedCalls(s: State, x: Frame, released: set<nat>)
    ensures var (s1, es) := MutedStep(s, x);
      && OpsOf(es, released) == [] && StartsOf(es) == []
      && s1.gateWasOpen == s.gateWasOpen && (s1.inSpeech ==> s.inSpeech)
  {
    NoCalls(MutedStep(s, x).1, released);
  }

  lemma CallsOfFrame(cfg: Config, apm: Canceller, s: State, x: Frame, released: set<nat>)
    requires BlockSize(cfg) > 0 && Agrees(s)
    ensures var (s1, es) := FrameStep(cfg, apm, s, x);
      FrameCalls(cfg, s, s1, x, Through(cfg, apm, s, x), OpsOf(es, released), StartsOf(es), released)
  {
    hide DownstreamStep, MutedStep, OpsOf, StartsOf, Reblock, Clean;
    if x.muted {
      MutedCalls(s, x, released);
    } else if x.resampled == [] {
      NoCalls([], released);
    } else {
      var s0 := s.(prevMuted := false);
      var (s1, samples, calls) := CancelStep(cfg, apm, s0, x);
      if samples != [] {
        DownstreamFrameCalls(cfg, s1, x, samples, released);
      }
      var more := DownstreamStep(cfg, s1, x, samples).1;
      if x.aec {
        CancelledMakeNoCalls(Reblock(BlockSize(cfg), s.carry + x.resampled).0, more, released);
      } else {
        NoCalls([], released);
        assert [] + more == more;
      }
    }
  }

  // ----- every run -----

  /** In speech the gate is open and the buffer records; its stamp is that of the last published start. */
  ghost predicate Sound(cfg: Config, w: World) {
    && Agrees(w.pipeline)
    && (w.pipeline.inSpeech ==> GateOpen(cfg, w.pipeline) && U.Recording(w.ops) && w.starts != [])
    && (w.starts != [] ==> U.PadStart(w.ops) == w.starts[|w.starts| - 1] - cfg.prePaddingMs * NS_PER_MS)
  }

  lemma OneOp(ops: seq<U.Op>, op: U.Op)
    ensures U.Recording(ops + [op]) == (if op.Append? then U.Recording(ops) else op.Started?)
    ensures U.PadStart(ops + [op]) == if op.Started? then op.padStart else U.PadStart(ops)
  {
    assert (ops + [op])[..|ops|] == ops;
  }

  lemma CallsKeepSound(cfg: Config, w: World, s1: State, x: Frame, samples: seq<Sample>,
                       ops: seq<U.Op>, starts: seq<int>, released: set<nat>)
    requires Sound(cfg, w) && Agrees(s1) && FrameCalls(cfg, w.pipeline, s1, x, samples, ops, starts, released)
    ensures Sound(cfg, World(s1, w.ops + ops, w.starts + starts))
  {
    hide U.Recording, U.PadStart, Agrees;
    if samples == [] {
      assert w.ops + ops == w.ops && w.starts + starts == w.starts;
    } else {
      var fed := U.Append(samples);
      OneOp(w.ops, fed);
      if ops == [fed] {
        assert w.starts + starts == w.starts;
      } else {
        var last := ops[1];
        assert w.ops + ops == (w.ops + [fed]) + [last];
        OneOp(w.ops + [fed], last);
        assert starts == [] ==> w.starts + starts == w.starts;
      }
    }
  }

  lemma {:induction false} EveryWorldIsSound(cfg: Config, bcfg: U.Config, apm: Canceller, es: seq<Event>)
    requires BlockSize(cfg) > 0
    ensures Sound(cfg, RunBoth(cfg, bcfg, apm, es))
  {
    if es != [] {
      var front, e := es[..|es| - 1], es[|es| - 1];
      EveryWorldIsSound(cfg, bcfg, apm, front);
      StepKeepsSound(cfg, bcfg, apm, RunBoth(cfg, bcfg, apm, front), e);
      hide Next, Sound;
    }
  }

  lemma StepKeepsSound(cfg: Config, bcfg: U.Config, apm: Canceller, w: World, e: Event)
    requires BlockSize(cfg) > 0 && Sound(cfg, w)
    ensures Sound(cfg, Next(cfg, bcfg, apm, w, e))
  {
    match e
    case Heard(f, released) =>
      var x := Replied(cfg, bcfg, apm, w, f, released);
      StepKeepsFlag(cfg, apm, w.pipeline, Captured(x));
      CallsOfFrame(cfg, apm, w.pipeline, x, released);
      var (s1, es) := FrameStep(cfg, apm, w.pipeline, x);
      hide FrameStep, Sound, FrameCalls, Replied, OpsOf, StartsOf, Seen;
      CallsKeepSound(cfg, w, s1, x, Through(cfg, apm, w.pipeline, x), OpsOf(es, released), StartsOf(es), released);
    case Retuned(onset, offset, hangover) =>
      StepKeepsFlag(cfg, apm, w.pipeline, Retune(onset, offset, hangover));
      NoCalls([], {});
      assert w.ops + [] == w.ops && w.starts + [] == w.starts;
  }

  // ----- what is published as an utterance -----

  predicate EndsRecording(e: Effect) {
    e.BufferEnded? || (e.Published? && e.event.UtteranceReady?)
  }

  /** The recording is ended, and an utterance announced, only out of speech, and as the buffer replied. */
  ghost predicate EndsOnlySpeech(s: State, x: Frame, es: seq<Effect>) {
    forall e | e in es && EndsRecording(e) ::
      s.inSpeech && (e.Published? ==> x.slice == Some(e.event.samples))
  }

  lemma JudgeEnds(cfg: Config, s: State, x: Frame, samples: seq<Sample>)
    requires cfg.rate > 0 && Agrees(s)
    ensures EndsOnlySpeech(s, x, JudgeStep(cfg, s, x, samples).1)
  {
    hide TooQuiet;
  }

  lemma DownstreamEnds(cfg: Config, s: State, x: Frame, samples: seq<Sample>)
    requires cfg.rate > 0 && Agrees(s)
    ensures EndsOnlySpeech(s, x, DownstreamStep(cfg, s, x, samples).1)
  {
    hide JudgeStep;
    GateFlag(cfg, s, x);
    JudgeEnds(cfg, GateStep(cfg, s, x).0, x, samples);
  }

  lemma FrameEnds(cfg: Config, apm: Canceller, s: State, x: Frame)
    requires BlockSize(cfg) > 0 && Agrees(s)
    ensures EndsOnlySpeech(s, x, FrameStep(cfg, apm, s, x).1)
    ensures Through(cfg, apm, s, x) == [] ==> forall e | e in FrameStep(cfg, apm, s, x).1 :: !EndsRecording(e)
  {
    hide DownstreamStep, Reblock, Clean;
    if !x.muted && x.resampled != [] {
      var (s1, samples, calls) := CancelStep(cfg, apm, s.(prevMuted := false), x);
      if x.aec {
        CallsAreNotPublished(Reblock(BlockSize(cfg), s.carry + x.resampled).0);
      }
      DownstreamEnds(cfg, s1, x, samples);
    }
  }

  /**
   Over every run of pipeline and buffer: whenever a recording is ended, there is one. What
   is announced as an utterance is the buffer's slice: a prefix of what it has kept of the
   audio since its own published start, stamped with that start less the padding.
   */
  lemma UtterancesAreRecordings(cfg: Config, bcfg: U.Config, apm: Canceller, es: seq<Event>, f: Frame, released: set<nat>)
    requires BlockSize(cfg) > 0
    ensures var w := RunBoth(cfg, bcfg, apm, es);
      var ops := Fed(w.ops, Through(cfg, apm, w.pipeline, f));
      forall e | e in Effects(cfg, bcfg, apm, w, Heard(f, released)).1 && EndsRecording(e) ::
        && U.Recording(ops) && w.starts != []
        && U.PadStart(ops) == w.starts[|w.starts| - 1] - cfg.prePaddingMs * NS_PER_MS
        && (e.Published? ==>
              && e.event.samples == U.Trimmed(bcfg, U.Run(bcfg, ops), f.at)
              && e.event.samples <= U.Kept(bcfg, ops)
              && (e.event.samples == [] ==> U.Kept(bcfg, ops) == []))
  {
    var w := RunBoth(cfg, bcfg, apm, es);
    var x, samples := Replied(cfg, bcfg, apm, w, f, released), Through(cfg, apm, w.pipeline, f);
    EveryWorldIsSound(cfg, bcfg, apm, es);
    FrameEnds(cfg, apm, w.pipeline, x);
    OneOp(w.ops, U.Append(samples));
    U.SliceIsPrefixOfKept(bcfg, Fed(w.ops, samples), f.at, released);
    hide RunBoth, FrameStep, U.Recording, U.PadStart, U.Kept, U.Run, U.Trimmed, Agrees;
  }

  ghost predicate EndsWith(xs: seq<Sample>, ys: seq<Sample>) {
    |xs| >= |ys| && xs[|xs| - |ys|..] == ys
  }

  /**
   What is replayed at a start: nothing out of a buffer that was left recording, and otherwise
   the end of what was appended while idle. So the replay ends with the frame itself, which is
   sent once more behind it, exactly when the buffer was idle and its padding holds the frame.
   */
  lemma ReplayAtAStart(cfg: Config, bcfg: U.Config, apm: Canceller, w: World, f: Frame, released: set<nat>)
    requires BlockSize(cfg) > 0
    ensures var samples := Through(cfg, apm, w.pipeline, f);
      var replay := Replied(cfg, bcfg, apm, w, f, released).prePad;
      && replay == (if U.Recording(w.ops) then [] else U.LastN(U.PrePadCapacity(bcfg), U.Idle(w.ops) + samples))
      && (samples != [] ==>
            && (EndsWith(replay, samples) <==> !U.Recording(w.ops) && U.PrePadCapacity(bcfg) >= |samples|)
            && (replay == [] <==> U.Recording(w.ops) || U.PrePadCapacity(bcfg) == 0))
  {
    var samples := Through(cfg, apm, w.pipeline, f);
    var ops := Fed(w.ops, samples);
    U.BufferRefinesHistory(bcfg, ops);
    U.RecordingHoldsNoIdle(w.ops);
    assert ops == w.ops || ops[..|ops| - 1] == w.ops;
    assert U.Idle(w.ops) + [] == U.Idle(w.ops);
    hide U.PrePadCapacity, U.Run, Through;
  }
}
