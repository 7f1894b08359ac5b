/**
 What the live sink of the pipeline gets, against what its buffer records
 (src/audio/pipeline.cpp:196-256 and src/audio/utterance.cpp:40-94): over every run of the two
 together, and exactly when a start replays its padding.
 */
module AudioPipelineStreaming {
  import opened Samples
  import opened AudioPipelines
  import opened AudioPipelineTheorems
  import opened AudioPipelineWithBuffer
  import B = AudioPipelineWithBuffer
  import U = UtteranceBuffers
  import E = Endpointing
  import G = AudioPipelineGate

  function StreamedBy(es: seq<Effect>): seq<Sample> {
    if es == [] then []
    else StreamedBy(es[..|es| - 1]) + if es[|es| - 1].Streamed? then es[|es| - 1].samples else []
  }

  /**
   Since the last published start: what it replayed, the frame it came with, what was appended
   behind that frame, and all that the live sink was sent.
   */
  datatype Live = Live(replayed: seq<Sample>, onset: seq<Sample>, appended: seq<Sample>, sent: seq<Sample>)

  function LiveNext(cfg: Config, bcfg: U.Config, apm: Canceller, w: World, l: Live, e: B.Event): Live
    requires BlockSize(cfg) > 0
  {
    match e
    case Retuned(_, _, _) => l
    case Heard(f, released) =>
      var es := Effects(cfg, bcfg, apm, w, e).1;
      if StartsOf(es) != [] then
        Live(Replied(cfg, bcfg, apm, w, f, released).prePad, Through(cfg, apm, w.pipeline, f), [], StreamedBy(es))
      else l.(appended := l.appended + AppendedBy(es), sent := l.sent + StreamedBy(es))
  }

  function LiveAfter(cfg: Config, bcfg: U.Config, apm: Canceller, es: seq<B.Event>): Live
    requires BlockSize(cfg) > 0
  {
    if es == [] then Live([], [], [], [])
    else
      var front := es[..|es| - 1];
      LiveNext(cfg, bcfg, apm, RunBoth(cfg, bcfg, apm, front), LiveAfter(cfg, bcfg, apm, front), es[|es| - 1])
  }

  // ----- what a frame streams -----

  lemma {:induction false} StreamedConcat(a: seq<Effect>, b: seq<Effect>)
    ensures StreamedBy(a + b) == StreamedBy(a) + StreamedBy(b)
    decreases |b|
  {
    if b == [] {
      assert a + b == a;
    } else {
      assert (a + b)[..|a + b| - 1] == a + b[..|b| - 1];
      StreamedConcat(a, b[..|b| - 1]);
    }
  }

  lemma {:induction false} NoneStreamed(es: seq<Effect>)
    requires forall e | e in es :: !e.Streamed?
    ensures StreamedBy(es) == []
  {
    if es != [] {
      assert es[|es| - 1] in es;
      NoneStreamed(es[..|es| - 1]);
    }
  }

  lemma OneStreamed(samples: seq<Sample>)
    ensures StreamedBy([Streamed(samples)]) == samples
  {
    assert [Streamed(samples)][..0] == [];
  }

  /** A start replays the pre-buffer and then the frame. */
  lemma StartedStreams(cfg: Config, x: Frame, samples: seq<Sample>)
    ensures StreamedBy(OnStarted(cfg, x, samples)) == if cfg.liveSink then x.prePad + samples else []
  {
    var es := OnStarted(cfg, x, samples);
    if cfg.liveSink {
      OneStreamed(x.prePad);
      OneStreamed(samples);
      var pad := if x.prePad != [] then [Streamed(x.prePad)] else [];
      assert es == ([es[0]] + pad) + ([Streamed(samples)] + [es[|es| - 1]]);
      StreamedConcat([es[0]] + pad, [Streamed(samples)] + [es[|es| - 1]]);
      StreamedConcat([es[0]], pad);
      StreamedConcat([Streamed(samples)], [es[|es| - 1]]);
      NoneStreamed([es[0]]);
      NoneStreamed([es[|es| - 1]]);
    } else {
      NoneStreamed(es);
    }
  }

  lemma JudgeStreams(cfg: Config, s: State, x: Frame, samples: seq<Sample>)
    requires cfg.rate > 0 && Agrees(s)
    ensures var (s1, es) := JudgeStep(cfg, s, x, samples);
      StreamedBy(es) == if cfg.liveSink && !s.inSpeech && s1.inSpeech then x.prePad + samples else []
  {
    hide OnStarted, StreamedBy;
    StartedStreams(cfg, x, samples);
    NoneStreamed([]);
    NoneStreamed([FalseStart]);
    NoneStreamed(OnEnded(cfg, x));
  }

  /** What goes to the live sink: a start's replay, or the frame itself, in speech and with the gate open. */
  function ToSink(cfg: Config, s: State, s1: State, x: Frame, samples: seq<Sample>): seq<Sample> {
    if !cfg.liveSink then []
    else if s.inSpeech then (if GateOpen(cfg, s1) then samples else [])
    else if s1.inSpeech then x.prePad + samples
    else []
  }

  lemma DownstreamStreams(cfg: Config, s: State, x: Frame, samples: seq<Sample>)
    requires cfg.rate > 0 && Agrees(s)
    ensures var (s1, es) := DownstreamStep(cfg, s, x, samples); StreamedBy(es) == ToSink(cfg, s, s1, x, samples)
  {
    GateFlag(cfg, s, x);
    GateIsShutOrOpen(cfg, s, x, samples);
    hide JudgeStep, StreamedBy, GateOpen;
    var (g, open) := GateStep(cfg, s, x);
    NoneStreamed([Appended(samples)]);
    if open {
      JudgeStreams(cfg, g, x, samples);
      var streamed := if g.inSpeech && cfg.liveSink then [Streamed(samples)] else [];
      StreamedConcat([Appended(samples)] + streamed, JudgeStep(cfg, g, x, samples).1);
      StreamedConcat([Appended(samples)], streamed);
      OneStreamed(samples);
      NoneStreamed([]);
    }
  }

  lemma FrameStreams(cfg: Config, apm: Canceller, s: State, x: Frame)
    requires BlockSize(cfg) > 0 && Agrees(s)
    ensures var (s1, es) := FrameStep(cfg, apm, s, x);
      var samples := Through(cfg, apm, s, x);
      && StreamedBy(es) == (if samples == [] then [] else ToSink(cfg, s, s1, x, samples))
      && AppendedBy(es) == samples
  {
    hide DownstreamStep, StreamedBy, AppendedBy, Reblock, Clean;
    if x.muted {
      NoneStreamed(MutedStep(s, x).1);
      NoneAppended(MutedStep(s, x).1);
    } else if x.resampled == [] {
      NoneStreamed([]);
      NoneAppended([]);
    } else {
      var (s1, samples, calls) := CancelStep(cfg, apm, s.(prevMuted := false), x);
      assert forall e | e in calls :: e.Cancelled? by {
        if x.aec {
          CallsAreNotPublished(Reblock(BlockSize(cfg), s.carry + x.resampled).0);
        }
      }
      NoneStreamed(calls);
      NoneAppended(calls);
      if samples != [] {
        var more := DownstreamStep(cfg, s1, x, samples).1;
        DownstreamStreams(cfg, s1, x, samples);
        DownstreamAppends(cfg, s1, x, samples);
        StreamedConcat(calls, more);
        FirstAppends(calls, samples, more);
      }
    }
  }

  // ----- every run -----

  /** The recording is the replay and the audio behind it; the sink got the first frame in between as well. */
  predicate Follows(bcfg: U.Config, w: World, l: Live) {
    U.Recorded(bcfg, w.ops) == l.replayed + l.appended && l.sent == l.replayed + l.onset + l.appended
  }

  /** What the live part becomes with a frame that makes these calls. */
  function Moved(l: Live, x: Frame, samples: seq<Sample>, starts: seq<int>, sent: seq<Sample>): Live {
    if starts != [] then Live(x.prePad, samples, [], sent)
    else l.(appended := l.appended + samples, sent := l.sent + sent)
  }

  /** The next frame, by the calls it makes. */
  lemma FrameAdds(cfg: Config, bcfg: U.Config, apm: Canceller, w: World, l: Live, f: Frame, released: set<nat>)
      returns (ops: seq<U.Op>, starts: seq<int>, sent: seq<Sample>)
    requires BlockSize(cfg) > 0 && B.Sound(cfg, w)
    ensures var e, samples := B.Heard(f, released), Through(cfg, apm, w.pipeline, f);
      var w1, x := Next(cfg, bcfg, apm, w, e), Replied(cfg, bcfg, apm, w, f, released);
      && w1.ops == w.ops + ops && FrameCalls(cfg, w.pipeline, w1.pipeline, x, samples, ops, starts, released)
      && sent == (if samples == [] then [] else ToSink(cfg, w.pipeline, w1.pipeline, x, samples))
      && LiveNext(cfg, bcfg, apm, w, l, e) == Moved(l, x, samples, starts, sent)
  {
    var x, samples := Replied(cfg, bcfg, apm, w, f, released), Through(cfg, apm, w.pipeline, f);
    CallsOfFrame(cfg, apm, w.pipeline, x, released);
    FrameStreams(cfg, apm, w.pipeline, x);
    var (s1, es) := FrameStep(cfg, apm, w.pipeline, x);
    ops, starts, sent := OpsOf(es, released), StartsOf(es), StreamedBy(es);
    hide FrameStep, FrameCalls, ToSink, OpsOf, StartsOf, StreamedBy, AppendedBy;
  }

  lemma RecordedBehind(bcfg: U.Config, ops: seq<U.Op>, op: U.Op)
    ensures op.Append? && U.Recording(ops) ==> U.Recorded(bcfg, ops + [op]) == U.Recorded(bcfg, ops) + op.samples
    ensures op.Started? ==> U.Recorded(bcfg, ops + [op]) == U.Run(bcfg, ops).preBuffer
    ensures op.Ended? ==> U.Recorded(bcfg, ops + [op]) == U.Recorded(bcfg, ops)
  {
    U.BufferRefinesHistory(bcfg, ops);
    assert (ops + [op])[..|ops|] == ops;
  }

  /** The calls of a frame that came through, one by one. */
  lemma RecordedByCalls(cfg: Config, bcfg: U.Config, w: World, s1: State, x: Frame, samples: seq<Sample>,
                        ops: seq<U.Op>, starts: seq<int>, released: set<nat>)
    requires samples != [] && FrameCalls(cfg, w.pipeline, s1, x, samples, ops, starts, released)
    requires w.pipeline.inSpeech ==> U.Recording(w.ops)
    ensures w.pipeline.inSpeech ==> U.Recorded(bcfg, w.ops + ops) == U.Recorded(bcfg, w.ops) + samples
    ensures !w.pipeline.inSpeech && s1.inSpeech ==>
      U.Recorded(bcfg, w.ops + ops) == U.Run(bcfg, Fed(w.ops, samples)).preBuffer
    ensures !w.pipeline.inSpeech && !s1.inSpeech ==> (U.Recording(w.ops + ops) <==> U.Recording(w.ops))
  {
    hide U.Recording, U.Recorded, U.Run, GateOpen;
    var fed := U.Append(samples);
    OneOp(w.ops, fed);
    RecordedBehind(bcfg, w.ops, fed);
    if |ops| == 1 {
      assert ops == [fed];
    } else {
      assert w.ops + ops == (w.ops + [fed]) + [ops[1]];
      RecordedBehind(bcfg, w.ops + [fed], ops[1]);
    }
  }

  lemma CallsKeepFollows(cfg: Config, bcfg: U.Config, w: World, l: Live, s1: State, x: Frame, samples: seq<Sample>,
                         ops: seq<U.Op>, starts: seq<int>, released: set<nat>)
    requires cfg.liveSink && B.Sound(cfg, w) && (w.pipeline.inSpeech ==> Follows(bcfg, w, l))
    requires FrameCalls(cfg, w.pipeline, s1, x, samples, ops, starts, released)
    requires x.prePad == U.Run(bcfg, Fed(w.ops, samples)).preBuffer
    ensures var w1 := World(s1, w.ops + ops, w.starts + starts);
      var sent := if samples == [] then [] else ToSink(cfg, w.pipeline, s1, x, samples);
      (s1.inSpeech || (U.Recording(w.ops) && !U.Recording(w1.ops)) ==>
         Follows(bcfg, w1, Moved(l, x, samples, starts, sent)))
  {
    hide U.Recording, U.Recorded, U.Run, GateOpen, Agrees, U.PadStart;
    if samples == [] {
      assert w.ops + ops == w.ops;
      NothingMoves(l, x);
    } else {
      RecordedByCalls(cfg, bcfg, w, s1, x, samples, ops, starts, released);
      if w.pipeline.inSpeech {
        OneOp(w.ops, U.Append(samples));
        Associates(l.replayed, l.appended, samples);
        Associates(l.replayed + l.onset, l.appended, samples);
        assert ops == [U.Append(samples)] || GateOpen(cfg, s1);
      }
    }
  }

  lemma NothingMoves(l: Live, x: Frame)
    ensures Moved(l, x, [], [], []) == l
  {
  }

  lemma StepKeepsFollows(cfg: Config, bcfg: U.Config, apm: Canceller, w: World, l: Live, e: B.Event)
    requires BlockSize(cfg) > 0 && cfg.liveSink && B.Sound(cfg, w) && (w.pipeline.inSpeech ==> Follows(bcfg, w, l))
    ensures var w1, l1 := Next(cfg, bcfg, apm, w, e), LiveNext(cfg, bcfg, apm, w, l, e);
      w1.pipeline.inSpeech || (U.Recording(w.ops) && !U.Recording(w1.ops)) ==> Follows(bcfg, w1, l1)
  {
    match e
    case Heard(f, released) =>
      var ops, starts, sent := FrameAdds(cfg, bcfg, apm, w, l, f, released);
      hide FrameStep, FrameCalls, ToSink, B.Sound, Follows, LiveNext, Moved, U.Recording;
      var samples := Through(cfg, apm, w.pipeline, f);
      CallsKeepFollows(cfg, bcfg, w, l, Next(cfg, bcfg, apm, w, e).pipeline, Replied(cfg, bcfg, apm, w, f, released),
                       samples, ops, starts, released);
    case Retuned(_, _, _) =>
      assert w.ops + [] == w.ops;
      NoCalls([], {});
  }

  /**
   Over every run with a live sink: while in speech, and with the frame that ends the recording,
   the recording is what the start replayed and the audio appended behind its frame; the live
   sink was sent the same, and in between the start's frame once more.
   */
  lemma {:induction false} LiveSinkFollowsTheRecording(cfg: Config, bcfg: U.Config, apm: Canceller, es: seq<B.Event>)
    requires BlockSize(cfg) > 0 && cfg.liveSink
    ensures var w := RunBoth(cfg, bcfg, apm, es);
      var ended := es != [] && U.Recording(RunBoth(cfg, bcfg, apm, es[..|es| - 1]).ops) && !U.Recording(w.ops);
      w.pipeline.inSpeech || ended ==> Follows(bcfg, w, LiveAfter(cfg, bcfg, apm, es))
  {
    if es != [] {
      var front := es[..|es| - 1];
      LiveSinkFollowsTheRecording(cfg, bcfg, apm, front);
      EveryWorldIsSound(cfg, bcfg, apm, front);
      var w, l := RunBoth(cfg, bcfg, apm, front), LiveAfter(cfg, bcfg, apm, front);
      StepKeepsFollows(cfg, bcfg, apm, w, l, es[|es| - 1]);
      hide Next, LiveNext, Follows, B.Sound, U.Recording;
    }
  }

  // ----- what a start replays -----

  /** Speech was last left by a mute or by the gate, which do not call the buffer. */
  predicate LeftRecording(cfg: Config, bcfg: U.Config, apm: Canceller, es: seq<B.Event>)
    requires BlockSize(cfg) > 0
  {
    if es == [] then false
    else
      var front, e := es[..|es| - 1], es[|es| - 1];
      var s, s1 := RunBoth(cfg, bcfg, apm, front).pipeline, RunBoth(cfg, bcfg, apm, es).pipeline;
      if s1.inSpeech then false
      else if s.inSpeech then (e.Heard? && e.frame.muted) || !GateOpen(cfg, s1)
      else LeftRecording(cfg, bcfg, apm, front)
  }

  lemma LeftByCalls(cfg: Config, w: World, s1: State, x: Frame, samples: seq<Sample>,
                    ops: seq<U.Op>, starts: seq<int>, released: set<nat>)
    requires B.Sound(cfg, w) && FrameCalls(cfg, w.pipeline, s1, x, samples, ops, starts, released)
    requires x.muted ==> samples == []
    ensures !s1.inSpeech ==>
      (U.Recording(w.ops + ops) <==> if w.pipeline.inSpeech then x.muted || !GateOpen(cfg, s1) else U.Recording(w.ops))
  {
    hide U.Recording, GateOpen, Agrees;
    if samples == [] {
      assert w.ops + ops == w.ops;
    } else {
      OneOp(w.ops, U.Append(samples));
      if |ops| == 1 {
        assert ops == [U.Append(samples)];
      } else {
        assert w.ops + ops == (w.ops + [U.Append(samples)]) + [ops[1]];
        OneOp(w.ops + [U.Append(samples)], ops[1]);
      }
    }
  }

  lemma StepLeaves(cfg: Config, bcfg: U.Config, apm: Canceller, w: World, e: B.Event)
    requires BlockSize(cfg) > 0 && B.Sound(cfg, w)
    ensures var w1 := Next(cfg, bcfg, apm, w, e);
      !w1.pipeline.inSpeech ==>
        (U.Recording(w1.ops) <==>
           if w.pipeline.inSpeech then (e.Heard? && e.frame.muted) || !GateOpen(cfg, w1.pipeline) else U.Recording(w.ops))
  {
    match e
    case Heard(f, released) =>
      var ops, starts, sent := FrameAdds(cfg, bcfg, apm, w, Live([], [], [], []), f, released);
      var samples := Through(cfg, apm, w.pipeline, f);
      hide FrameStep, FrameCalls, ToSink, B.Sound, LiveNext, U.Recording, GateOpen;
      LeftByCalls(cfg, w, Next(cfg, bcfg, apm, w, e).pipeline, Replied(cfg, bcfg, apm, w, f, released),
                  samples, ops, starts, released);
    case Retuned(_, _, _) =>
      assert w.ops + [] == w.ops;
      NoCalls([], {});
  }

  /** Out of speech the buffer records exactly when it was left recording. */
  lemma {:induction false} RecordsOutOfSpeechExactlyWhen(cfg: Config, bcfg: U.Config, apm: Canceller, es: seq<B.Event>)
    requires BlockSize(cfg) > 0
    ensures var w := RunBoth(cfg, bcfg, apm, es);
      !w.pipeline.inSpeech ==> (U.Recording(w.ops) <==> LeftRecording(cfg, bcfg, apm, es))
  {
    if es != [] {
      var front := es[..|es| - 1];
      RecordsOutOfSpeechExactlyWhen(cfg, bcfg, apm, front);
      EveryWorldIsSound(cfg, bcfg, apm, front);
      StepLeaves(cfg, bcfg, apm, RunBoth(cfg, bcfg, apm, front), es[|es| - 1]);
      hide Next, B.Sound, U.Recording, GateOpen;
    }
  }

  lemma OneEvent(cfg: Config, bcfg: U.Config, apm: Canceller, es: seq<B.Event>, e: B.Event)
    requires BlockSize(cfg) > 0
    ensures var w, l := RunBoth(cfg, bcfg, apm, es), LiveAfter(cfg, bcfg, apm, es);
      && RunBoth(cfg, bcfg, apm, es + [e]) == Next(cfg, bcfg, apm, w, e)
      && LiveAfter(cfg, bcfg, apm, es + [e]) == LiveNext(cfg, bcfg, apm, w, l, e)
  {
    hide Next, LiveNext;
    assert (es + [e])[..|es|] == es;
  }

  /** What a start publishes, replays and records. */
  lemma StartByCalls(cfg: Config, bcfg: U.Config, apm: Canceller, w: World, l: Live, f: Frame, released: set<nat>)
    requires BlockSize(cfg) > 0 && B.Sound(cfg, w)
    requires !w.pipeline.inSpeech && Next(cfg, bcfg, apm, w, B.Heard(f, released)).pipeline.inSpeech
    ensures var e, samples := B.Heard(f, released), Through(cfg, apm, w.pipeline, f);
      var w1, l1 := Next(cfg, bcfg, apm, w, e), LiveNext(cfg, bcfg, apm, w, l, e);
      var replay := Replied(cfg, bcfg, apm, w, f, released).prePad;
      && samples != [] && l1 == Live(replay, samples, [], if cfg.liveSink then replay + samples else [])
      && U.Recorded(bcfg, w1.ops) == replay
  {
    var ops, starts, sent := FrameAdds(cfg, bcfg, apm, w, l, f, released);
    var samples := Through(cfg, apm, w.pipeline, f);
    hide FrameStep, U.Recording, U.Recorded, LiveNext, GateOpen, Through, U.Run;
    assert w.ops + ops == (w.ops + [U.Append(samples)]) + [ops[1]];
    RecordedBehind(bcfg, w.ops + [U.Append(samples)], ops[1]);
  }

  /**
   A start replays nothing, and begins an empty recording, when the buffer was left recording;
   otherwise both get the end of what was appended while idle. The recording has the frame the
   start came with, and the live sink is sent it twice, if and only if the buffer was not left
   recording and its padding holds the frame.
   */
  lemma WhatAStartReplays(cfg: Config, bcfg: U.Config, apm: Canceller, es: seq<B.Event>, f: Frame, released: set<nat>)
    requires BlockSize(cfg) > 0
    ensures var w, w1 := RunBoth(cfg, bcfg, apm, es), RunBoth(cfg, bcfg, apm, es + [B.Heard(f, released)]);
      var l1, samples := LiveAfter(cfg, bcfg, apm, es + [B.Heard(f, released)]), Through(cfg, apm, w.pipeline, f);
      var left, capacity := LeftRecording(cfg, bcfg, apm, es), U.PrePadCapacity(bcfg);
      !w.pipeline.inSpeech && w1.pipeline.inSpeech ==>
        && l1.onset == samples != [] && l1.appended == [] && U.Recorded(bcfg, w1.ops) == l1.replayed
        && l1.replayed == (if left then [] else U.LastN(capacity, U.Idle(w.ops) + samples))
        && (EndsWith(l1.replayed, samples) <==> !left && capacity >= |samples|)
        && (l1.replayed == [] <==> left || capacity == 0)
        && (cfg.liveSink ==> l1.sent == l1.replayed + samples)
  {
    var w, l := RunBoth(cfg, bcfg, apm, es), LiveAfter(cfg, bcfg, apm, es);
    OneEvent(cfg, bcfg, apm, es, B.Heard(f, released));
    EveryWorldIsSound(cfg, bcfg, apm, es);
    RecordsOutOfSpeechExactlyWhen(cfg, bcfg, apm, es);
    hide *;
    if !w.pipeline.inSpeech && RunBoth(cfg, bcfg, apm, es + [B.Heard(f, released)]).pipeline.inSpeech {
      StartByCalls(cfg, bcfg, apm, w, l, f, released);
      ReplayAtAStart(cfg, bcfg, apm, w, f, released);
    }
  }

  // ----- runs in which a start replays too much, too little and nothing -----

  /** A millisecond of padding, which is one sample. */
  const PADDING := U.Config(1000, 1, 0, 1, 60000)

  function Said(f: Frame): seq<B.Event> {
    [B.Heard(f, {})]
  }

  /** One frame of the run: the pipeline's step, with the frame as the buffer completes it. */
  lemma Hears(apm: Canceller, es: seq<B.Event>, f: Frame) returns (x: Frame)
    requires !f.muted && !f.aec
    ensures G.Like(x, f)
    ensures var s := RunBoth(G.WITNESS, PADDING, apm, es).pipeline;
      && RunBoth(G.WITNESS, PADDING, apm, es + Said(f)).pipeline == FrameStep(G.WITNESS, apm, s, x).0
      && Through(G.WITNESS, apm, s, f) == f.resampled
  {
    OneEvent(G.WITNESS, PADDING, apm, es, B.Heard(f, {}));
    x := Replied(G.WITNESS, PADDING, apm, RunBoth(G.WITNESS, PADDING, apm, es), f, {});
    hide FrameStep, RunBoth;
  }

  /** Where the run stands: the endpointer's phase, and the gate. */
  predicate At(apm: Canceller, es: seq<B.Event>, phase: E.Phase, stamp: int, left: bool) {
    var s := RunBoth(G.WITNESS, PADDING, apm, es).pipeline;
    G.In(s, phase) && (phase != E.Quiet ==> s.gateWasOpen && s.gateStamp == stamp)
    && (phase != E.Speaking ==> LeftRecording(G.WITNESS, PADDING, apm, es) == left)
  }

  lemma AtTheStart(apm: Canceller)
    ensures At(apm, [], E.Quiet, 0, false)
  {
  }

  /** Not in speech before and after, nothing changes. */
  lemma StaysLeft(apm: Canceller, es: seq<B.Event>, e: B.Event)
    requires !RunBoth(G.WITNESS, PADDING, apm, es).pipeline.inSpeech
    requires !RunBoth(G.WITNESS, PADDING, apm, es + [e]).pipeline.inSpeech
    ensures LeftRecording(G.WITNESS, PADDING, apm, es + [e]) == LeftRecording(G.WITNESS, PADDING, apm, es)
  {
    assert (es + [e])[..|es|] == es;
  }

  lemma FirstWord(apm: Canceller, es: seq<B.Event>, at: int, v: seq<Sample>, before: int, left: bool)
    requires at != 0 && v != [] && At(apm, es, E.Quiet, before, left)
    ensures At(apm, es + Said(G.Spoken(at, true, v)), E.Onset, at, left)
  {
    var f := G.Spoken(at, true, v);
    var x := Hears(apm, es, f);
    hide RunBoth, FrameStep, LeftRecording, Through;
    G.HeardOnce(apm, RunBoth(G.WITNESS, PADDING, apm, es).pipeline, x, at, v);
    StaysLeft(apm, es, B.Heard(f, {}));
  }

  /** What the start replays, is sent and records. */
  lemma SecondWord(apm: Canceller, es: seq<B.Event>, at: int, v: seq<Sample>, before: int, left: bool)
    requires at != 0 && v != [] && At(apm, es, E.Onset, before, left)
    ensures var es1 := es + Said(G.Spoken(at, true, v));
      && At(apm, es1, E.Speaking, at, left)
      && var replay := if left then [] else v[|v| - 1..];
      && U.Recorded(PADDING, RunBoth(G.WITNESS, PADDING, apm, es1).ops) == replay
      && LiveAfter(G.WITNESS, PADDING, apm, es1).sent == replay + v
  {
    var f := G.Spoken(at, true, v);
    var x := Hears(apm, es, f);
    hide RunBoth, FrameStep, LiveAfter, LeftRecording, U.Recorded, U.Idle, U.LastN, U.PrePadCapacity, Through, EndsWith;
    G.HeardAgain(apm, RunBoth(G.WITNESS, PADDING, apm, es).pipeline, x, at, v);
    WhatAStartReplays(G.WITNESS, PADDING, apm, es, f, {});
    OneOfPadding(U.Idle(RunBoth(G.WITNESS, PADDING, apm, es).ops), v);
  }

  lemma OneOfPadding(idle: seq<Sample>, v: seq<Sample>)
    requires v != []
    ensures U.LastN(U.PrePadCapacity(PADDING), idle + v) == v[|v| - 1..]
  {
  }

  /** Without the wake word for more than a millisecond: the recording is left. */
  lemma Silence(apm: Canceller, es: seq<B.Event>, at: int, v: seq<Sample>, before: int, left: bool)
    requires v != [] && at - before > NS_PER_MS && At(apm, es, E.Speaking, before, left)
    ensures At(apm, es + Said(G.Spoken(at, false, v)), E.Quiet, 0, true)
  {
    var f := G.Spoken(at, false, v);
    var x := Hears(apm, es, f);
    GateLeaves(apm, es, B.Heard(f, {}));
    hide RunBoth, FrameStep, LeftRecording, Through;
    G.NotHeard(apm, RunBoth(G.WITNESS, PADDING, apm, es).pipeline, x, at, v);
  }

  lemma FirstStart(apm: Canceller, v: seq<Sample>)
    requires v != []
    ensures var es := [] + Said(G.F1) + Said(G.Spoken(2, true, v));
      && At(apm, es, E.Speaking, 2, false)
      && U.Recorded(PADDING, RunBoth(G.WITNESS, PADDING, apm, es).ops) == v[|v| - 1..]
      && LiveAfter(G.WITNESS, PADDING, apm, es).sent == v[|v| - 1..] + v
  {
    AtTheStart(apm);
    hide At, RunBoth, LiveAfter, U.Recorded;
    FirstWord(apm, [], 1, [1], 0, false);
    SecondWord(apm, [] + Said(G.F1), 2, v, 1, false);
  }

  /** The padding holds the frame: the live sink is sent it twice. */
  lemma TheFrameIsSentTwice(apm: Canceller)
    ensures LiveAfter(G.WITNESS, PADDING, apm, [] + Said(G.F1) + Said(G.F2)).sent == [2, 2]
  {
    FirstStart(apm, [2]);
    hide LiveAfter, U.Recorded, RunBoth;
  }

  /** The padding does not: the recording begins in the middle of the frame, and so does the stream. */
  lemma TheFrameIsCut(apm: Canceller)
    ensures var es := [] + Said(G.F1) + Said(G.Spoken(2, true, [2, 3]));
      && LiveAfter(G.WITNESS, PADDING, apm, es).sent == [3, 2, 3]
      && U.Recorded(PADDING, RunBoth(G.WITNESS, PADDING, apm, es).ops) == [3]
  {
    FirstStart(apm, [2, 3]);
    hide LiveAfter, U.Recorded, RunBoth;
  }

  /** The gate ran out during speech: the next start replays nothing, and its frame is not recorded. */
  lemma TheFrameIsLost(apm: Canceller)
    ensures var es := [] + Said(G.F1) + Said(G.F2) + Said(G.F3) + Said(G.F4) + Said(G.F5);
      var w, l := RunBoth(G.WITNESS, PADDING, apm, es), LiveAfter(G.WITNESS, PADDING, apm, es);
      w.pipeline.inSpeech && U.Recorded(PADDING, w.ops) == [] && l.sent == [5]
  {
    var es2 := [] + Said(G.F1) + Said(G.F2);
    FirstStart(apm, [2]);
    hide RunBoth, LiveAfter, LeftRecording, U.Recorded;
    Silence(apm, es2, 3 * NS_PER_MS, [3], 2, false);
    FirstWord(apm, es2 + Said(G.F3), 4 * NS_PER_MS, [4], 0, true);
    SecondWord(apm, es2 + Said(G.F3) + Said(G.F4), 5 * NS_PER_MS, [5], 4 * NS_PER_MS, true);
  }

  lemma GateLeaves(apm: Canceller, es: seq<B.Event>, e: B.Event)
    requires RunBoth(G.WITNESS, PADDING, apm, es).pipeline.inSpeech
    ensures var s1 := RunBoth(G.WITNESS, PADDING, apm, es + [e]).pipeline;
      !s1.inSpeech && !s1.gateWasOpen ==> LeftRecording(G.WITNESS, PADDING, apm, es + [e])
  {
    assert (es + [e])[..|es|] == es;
  }
}
