/**
 What the pipeline publishes, frame by frame and over every run of pipeline and buffer
 (src/audio/pipeline.cpp:108-311): starts, ends, and exactly which utterances.
 */
module AudioPipelinePublishing {
  import opened Samples
  import opened Wrappers
  import opened AudioPipelines
  import opened AudioPipelineTheorems
  import B = AudioPipelineWithBuffer
  import E = Endpointing
  import U = UtteranceBuffers

  function EventsOf(es: seq<Effect>): seq<Event> {
    if es == [] then []
    else EventsOf(es[..|es| - 1]) + if es[|es| - 1].Published? then [es[|es| - 1].event] else []
  }

  /** The sum of the squared samples, from the first to the last. */
  function Energy(xs: seq<Sample>): int {
    if xs == [] then 0 else xs[0] * xs[0] + Energy(xs[1..])
  }

  /** The root mean square of `xs`, if it has one, is not below `minRms`; a minimum of 0 stands for none. */
  predicate LoudEnough(minRms: nat, xs: seq<Sample>) {
    minRms == 0 || xs == [] || Energy(xs) >= minRms * minRms * |xs|
  }

  /** What the endpointer makes of a frame that it is shown. */
  function VerdictOn(cfg: Config, apm: Canceller, s: State, x: Frame): E.Outcome
    requires BlockSize(cfg) > 0
  {
    var seen := Seen(cfg, apm, s, Captured(x));
    if seen != [] && seen[0].Frame? then E.Step(s.endpointer, seen[0]).1 else E.Nothing
  }

  /** A mute cuts an utterance short. */
  predicate CutByMute(s: State, x: Frame) {
    x.muted && !s.prevMuted && InUtterance(s.endpointer)
  }

  function ToPublish(cfg: Config, apm: Canceller, s: State, x: Frame): seq<Event>
    requires BlockSize(cfg) > 0
  {
    match VerdictOn(cfg, apm, s, x)
    case SpeechStarted => [SpeechStarted(x.at)]
    case SpeechEnded =>
      [SpeechEnded(x.at)]
      + if x.slice.Some? && LoudEnough(cfg.minRms, x.slice.value) then [UtteranceReady(x.slice.value)] else []
    case _ => if CutByMute(s, x) then [SpeechEnded(x.at)] else []
  }

  // ----- loudness -----

  lemma {:induction false} EnergyLast(xs: seq<Sample>, x: Sample)
    ensures Energy(xs + [x]) == Energy(xs) + x * x
  {
    if xs == [] {
      assert [x][1..] == [] && xs + [x] == [x];
    } else {
      assert (xs + [x])[1..] == xs[1..] + [x];
      EnergyLast(xs[1..], x);
    }
  }

  lemma {:induction false} EnergyIsSum(xs: seq<Sample>)
    ensures Energy(xs) == SumOfSquares(xs)
  {
    if xs != [] {
      EnergyIsSum(xs[..|xs| - 1]);
      EnergyLast(xs[..|xs| - 1], xs[|xs| - 1]);
      assert xs == xs[..|xs| - 1] + [xs[|xs| - 1]];
    }
  }

  lemma QuietIsNotLoud(minRms: nat, xs: seq<Sample>)
    ensures TooQuiet(minRms, xs) <==> !LoudEnough(minRms, xs)
  {
    EnergyIsSum(xs);
    hide Energy, SumOfSquares;
  }

  // ----- one frame -----

  lemma {:induction false} EventsConcat(a: seq<Effect>, b: seq<Effect>)
    ensures EventsOf(a + b) == EventsOf(a) + EventsOf(b)
    decreases |b|
  {
    if b == [] {
      assert a + b == a;
    } else {
      assert (a + b)[..|a + b| - 1] == a + b[..|b| - 1];
      EventsConcat(a, b[..|b| - 1]);
    }
  }

  lemma {:induction false} NoEvents(es: seq<Effect>)
    requires forall e | e in es :: !e.Published?
    ensures EventsOf(es) == []
  {
    if es != [] {
      assert es[|es| - 1] in es;
      NoEvents(es[..|es| - 1]);
    }
  }

  lemma OneEvent(e: Effect)
    requires e.Published?
    ensures EventsOf([e]) == [e.event]
  {
    assert [e][..0] == [];
  }

  lemma StartIsPublished(cfg: Config, x: Frame, samples: seq<Sample>)
    ensures EventsOf(OnStarted(cfg, x, samples)) == [SpeechStarted(x.at)]
  {
    var es := OnStarted(cfg, x, samples);
    assert es == es[..|es| - 1] + [Published(SpeechStarted(x.at))];
    EventsConcat(es[..|es| - 1], [Published(SpeechStarted(x.at))]);
    NoEvents(es[..|es| - 1]);
    OneEvent(Published(SpeechStarted(x.at)));
  }

  lemma EndIsPublished(cfg: Config, x: Frame)
    ensures EventsOf(OnEnded(cfg, x)) == [SpeechEnded(x.at)]
      + if x.slice.Some? && LoudEnough(cfg.minRms, x.slice.value) then [UtteranceReady(x.slice.value)] else []
  {
    var end := Published(SpeechEnded(x.at));
    var es := OnEnded(cfg, x);
    assert es == ([BufferEnded(x.at)] + [end]) + es[2..];
    EventsConcat([BufferEnded(x.at)] + [end], es[2..]);
    EventsConcat([BufferEnded(x.at)], [end]);
    NoEvents([BufferEnded(x.at)]);
    OneEvent(end);
    if x.slice.Some? {
      QuietIsNotLoud(cfg.minRms, x.slice.value);
      OneEvent(Published(UtteranceReady(x.slice.value)));
    }
    hide LoudEnough, TooQuiet;
  }

  lemma ReadyIsLoud(cfg: Config, x: Frame)
    ensures Ready(cfg, x) <==> x.slice.Some? && LoudEnough(cfg.minRms, x.slice.value)
  {
    if x.slice.Some? {
      QuietIsNotLoud(cfg.minRms, x.slice.value);
    }
    hide LoudEnough, TooQuiet;
  }

  /** What the frame's verdict publishes and counts. */
  predicate Judged(cfg: Config, s: State, s1: State, x: Frame, o: E.Outcome, published: seq<Event>) {
    var loud := x.slice.Some? && LoudEnough(cfg.minRms, x.slice.value);
    && published ==
         (match o
          case SpeechStarted => [SpeechStarted(x.at)]
          case SpeechEnded => [SpeechEnded(x.at)] + if loud then [UtteranceReady(x.slice.value)] else []
          case _ => [])
    && s1.utterances == s.utterances + (if o.SpeechEnded? && loud then 1 else 0)
    && s1.lowRmsDrops == s.lowRmsDrops + (if o.SpeechEnded? && x.slice.Some? && !loud then 1 else 0)
    && s1.falseStarts == s.falseStarts + (if o.FalseStart? then 1 else 0)
  }

  lemma JudgePublishes(cfg: Config, s: State, x: Frame, samples: seq<Sample>)
    requires cfg.rate > 0
    ensures var p := if x.p.Some? then x.p.value else s.lastP;
      var (s1, es) := JudgeStep(cfg, s, x, samples);
      && Judged(cfg, s, s1, x, E.OnFrame(s.endpointer, p, FrameMs(cfg, samples), x.at).1, EventsOf(es))
      && s1.lastP == p && s1.prevMuted == s.prevMuted
  {
    StartIsPublished(cfg, x, samples);
    EndIsPublished(cfg, x);
    NoEvents([]);
    NoEvents([FalseStart]);
    ReadyIsLoud(cfg, x);
    hide OnStarted, OnEnded, EventsOf, LoudEnough, Ready, E.OnFrame, FrameMs;
  }

  lemma FalseStartsAreEffects(cfg: Config, s: State, x: Frame, samples: seq<Sample>)
    requires cfg.rate > 0
    ensures var (s1, es) := JudgeStep(cfg, s, x, samples);
      FalseStart in es <==> s1.falseStarts == s.falseStarts + 1
  {
    hide E.OnFrame, FrameMs, TooQuiet;
  }

  /** Nothing is published, and no counter moves. */
  predicate Still(s: State, s1: State, published: seq<Event>) {
    published == [] && s1.utterances == s.utterances && s1.lowRmsDrops == s.lowRmsDrops && s1.falseStarts == s.falseStarts
    && s1.lastP == s.lastP
  }

  lemma DownstreamPublishes(cfg: Config, s: State, x: Frame, samples: seq<Sample>)
    requires cfg.rate > 0
    ensures var (s1, es) := DownstreamStep(cfg, s, x, samples);
      var (g, open) := GateStep(cfg, s, x);
      var p := if x.p.Some? then x.p.value else s.lastP;
      && (if open then
            Judged(cfg, s, s1, x, E.OnFrame(s.endpointer, p, FrameMs(cfg, samples), x.at).1, EventsOf(es)) && s1.lastP == p
          else Still(s, s1, EventsOf(es)))
      && s1.prevMuted == s.prevMuted
  {
    hide EventsOf, JudgeStep, E.OnFrame, FrameMs, LoudEnough;
    var (g, open) := GateStep(cfg, s, x);
    NoEvents([Appended(samples)]);
    if open {
      JudgePublishes(cfg, g, x, samples);
      var first := [Appended(samples)] + if g.inSpeech && cfg.liveSink then [Streamed(samples)] else [];
      NoEvents(first);
      EventsConcat(first, JudgeStep(cfg, g, x, samples).1);
    }
  }

  /** The frame comes to the verdict. */
  predicate IsJudged(cfg: Config, apm: Canceller, s: State, x: Frame)
    requires BlockSize(cfg) > 0
  {
    var seen := Seen(cfg, apm, s, Captured(x)); seen != [] && seen[0].Frame?
  }

  lemma MutePublishes(s: State, x: Frame)
    requires x.muted
    ensures var (s1, es) := MutedStep(s, x);
      && EventsOf(es) == (if CutByMute(s, x) then [SpeechEnded(x.at)] else [])
      && Still(s, s1, []) && s1.prevMuted
  {
    NoEvents([]);
    OneEvent(Published(SpeechEnded(x.at)));
  }

  /** What a frame that is not muted is shown as, behind the canceller. */
  lemma SeenBehindCanceller(cfg: Config, apm: Canceller, s: State, x: Frame)
    requires BlockSize(cfg) > 0 && !x.muted && x.resampled != []
    ensures var (s1, samples, calls) := CancelStep(cfg, apm, s.(prevMuted := false), x);
      && Seen(cfg, apm, s, Captured(x)) == (if samples == [] then [] else SeenDownstream(cfg, s1, x, samples))
      && Still(s, s1, []) && s1.endpointer == s.endpointer && !s1.prevMuted && s1.gateWasOpen == s.gateWasOpen
      && EventsOf(calls) == []
  {
    hide EventsOf;
    if x.aec {
      CallsAreNotPublished(Reblock(BlockSize(cfg), s.carry + x.resampled).0);
    }
    NoEvents(CancelStep(cfg, apm, s.(prevMuted := false), x).2);
  }

  /** The verdict on a frame that came through. */
  lemma VerdictDownstream(cfg: Config, s: State, x: Frame, samples: seq<Sample>)
    requires cfg.rate > 0
    ensures var seen, (g, open) := SeenDownstream(cfg, s, x, samples), GateStep(cfg, s, x);
      var p := if x.p.Some? then x.p.value else s.lastP;
      && (open ==> seen == [E.Frame(p, FrameMs(cfg, samples), x.at)])
      && (!open ==> seen == [] || seen == [E.Force(x.at)])
  {
    hide FrameMs;
  }

  /** What goes with a verdict: the events, and the counters that move. */
  predicate Publishes(cfg: Config, s: State, s1: State, x: Frame, o: E.Outcome, judged: bool, published: seq<Event>) {
    && Judged(cfg, s, s1, x, o, published) && s1.prevMuted == x.muted
    && s1.lastP == if judged && x.p.Some? then x.p.value else s.lastP
  }

  lemma StillIsNoVerdict(cfg: Config, s: State, s1: State, x: Frame, published: seq<Event>)
    requires Still(s, s1, published) && s1.prevMuted == x.muted
    ensures Publishes(cfg, s, s1, x, E.Nothing, false, published)
  {
  }

  lemma DownstreamFits(cfg: Config, s: State, x: Frame, samples: seq<Sample>)
    requires cfg.rate > 0 && s.prevMuted == x.muted
    ensures var (s1, es) := DownstreamStep(cfg, s, x, samples);
      var seen := SeenDownstream(cfg, s, x, samples);
      var judged := seen != [] && seen[0].Frame?;
      Publishes(cfg, s, s1, x, if judged then E.Step(s.endpointer, seen[0]).1 else E.Nothing, judged, EventsOf(es))
  {
    DownstreamPublishes(cfg, s, x, samples);
    VerdictDownstream(cfg, s, x, samples);
    if !GateStep(cfg, s, x).1 {
      StillIsNoVerdict(cfg, s, DownstreamStep(cfg, s, x, samples).0, x, []);
    }
    hide EventsOf, DownstreamStep, GateStep, SeenDownstream, LoudEnough, FrameMs, E.OnFrame;
  }

  lemma FromTheSame(cfg: Config, s: State, s1: State, s2: State, x: Frame, o: E.Outcome, judged: bool, published: seq<Event>)
    requires Still(s, s1, []) && Publishes(cfg, s1, s2, x, o, judged, published)
    ensures Publishes(cfg, s, s2, x, o, judged, published)
  {
  }

  lemma FrameIsStaged(cfg: Config, apm: Canceller, s: State, x: Frame)
    requires BlockSize(cfg) > 0 && !x.muted && x.resampled != []
    ensures var (s1, samples, calls) := CancelStep(cfg, apm, s.(prevMuted := false), x);
      var (s2, more) := DownstreamStep(cfg, s1, x, samples);
      FrameStep(cfg, apm, s, x) == if samples == [] then (s1, calls) else (s2, calls + more)
  {
    hide CancelStep, DownstreamStep;
  }

  /** Behind the canceller, which publishes and counts nothing. */
  lemma ThroughPublishes(cfg: Config, apm: Canceller, s: State, x: Frame)
    requires BlockSize(cfg) > 0 && !x.muted && x.resampled != []
    ensures var (s1, es) := FrameStep(cfg, apm, s, x);
      Publishes(cfg, s, s1, x, VerdictOn(cfg, apm, s, x), IsJudged(cfg, apm, s, x), EventsOf(es))
  {
    SeenBehindCanceller(cfg, apm, s, x);
    FrameIsStaged(cfg, apm, s, x);
    var (s1, samples, calls) := CancelStep(cfg, apm, s.(prevMuted := false), x);
    var o, judged := VerdictOn(cfg, apm, s, x), IsJudged(cfg, apm, s, x);
    var published := EventsOf(FrameStep(cfg, apm, s, x).1);
    if samples == [] {
      hide *;
      StillIsNoVerdict(cfg, s1, s1, x, []);
      FromTheSame(cfg, s, s1, s1, x, E.Nothing, false, []);
    } else {
      DownstreamFits(cfg, s1, x, samples);
      EventsConcat(calls, DownstreamStep(cfg, s1, x, samples).1);
      hide FrameStep, EventsOf, DownstreamStep, SeenDownstream, Seen, CancelStep, Publishes, Still, E.Step;
      FromTheSame(cfg, s, s1, DownstreamStep(cfg, s1, x, samples).0, x, o, judged, published);
    }
    hide FrameStep, EventsOf, DownstreamStep, SeenDownstream, Seen, CancelStep, LoudEnough, E.Step, Judged;
  }

  /**
   What a frame publishes, and which counters move: a start or an end when the endpointer says
   so, an utterance with an end if there is a slice and it is loud enough, an end when a mute
   cuts an utterance short, and nothing else.
   */
  lemma FramePublishes(cfg: Config, apm: Canceller, s: State, x: Frame)
    requires BlockSize(cfg) > 0
    ensures var (s1, es) := FrameStep(cfg, apm, s, x);
      var o, judged := VerdictOn(cfg, apm, s, x), IsJudged(cfg, apm, s, x);
      && EventsOf(es) == ToPublish(cfg, apm, s, x)
      && Publishes(cfg, s, s1, x, o, judged, if CutByMute(s, x) then [] else EventsOf(es))
  {
    if x.muted {
      MutePublishes(s, x);
      StillIsNoVerdict(cfg, s, MutedStep(s, x).0, x, []);
    } else if x.resampled == [] {
      NoEvents([]);
      StillIsNoVerdict(cfg, s, s.(prevMuted := false), x, []);
    } else {
      ThroughPublishes(cfg, apm, s, x);
      hide FrameStep, Seen;
    }
    hide EventsOf, MutedStep, LoudEnough, DownstreamStep, CancelStep;
  }

  // ----- every run of pipeline and buffer -----

  /** An utterance of the endpointer's ends with frame f, by the hangover. */
  predicate EndsWith(cfg: Config, apm: Canceller, s: State, f: Frame)
    requires BlockSize(cfg) > 0
  {
    VerdictOn(cfg, apm, s, f) == E.SpeechEnded
  }

  /** What the buffer cuts out of its recording for an end with frame f. */
  function SliceFor(cfg: Config, bcfg: U.Config, apm: Canceller, w: B.World, f: Frame): seq<Sample>
    requires BlockSize(cfg) > 0
  {
    U.Trimmed(bcfg, U.Run(bcfg, B.Fed(w.ops, B.Through(cfg, apm, w.pipeline, f))), f.at)
  }

  lemma EndIsInSpeech(cfg: Config, apm: Canceller, s: State, f: Frame)
    requires BlockSize(cfg) > 0 && Agrees(s) && EndsWith(cfg, apm, s, f)
    ensures s.inSpeech && B.Through(cfg, apm, s, f) != []
  {
    hide GateStep, Reblock, Clean, FrameMs;
  }

  /** What the buffer replies does not matter to the endpointer. */
  lemma RepliesAreNotSeen(cfg: Config, bcfg: U.Config, apm: Canceller, w: B.World, f: Frame, released: set<nat>)
    requires BlockSize(cfg) > 0
    ensures var x := B.Replied(cfg, bcfg, apm, w, f, released);
      && Seen(cfg, apm, w.pipeline, Captured(x)) == Seen(cfg, apm, w.pipeline, Captured(f))
      && x.at == f.at && x.muted == f.muted && x.p == f.p
  {
    hide Reblock, Clean, FrameMs, U.Run;
  }

  /**
   Over every run of pipeline and buffer, exactly what a frame publishes: a start when the
   endpointer reports one; an end when it reports one, together with the buffer's slice as an
   utterance if and only if that is empty, or no minimum is set, or its root mean square is not
   below the minimum; an end alone when a mute cuts an utterance short; and nothing otherwise.
   */
  lemma UtterancesAreAnnouncedExactlyWhen(cfg: Config, bcfg: U.Config, apm: Canceller, es: seq<B.Event>, f: Frame, released: set<nat>)
    requires BlockSize(cfg) > 0
    ensures var w := B.RunBoth(cfg, bcfg, apm, es);
      var slice, s := SliceFor(cfg, bcfg, apm, w, f), w.pipeline;
      EventsOf(B.Effects(cfg, bcfg, apm, w, B.Heard(f, released)).1) ==
        if EndsWith(cfg, apm, s, f) then
          [SpeechEnded(f.at)] + if LoudEnough(cfg.minRms, slice) then [UtteranceReady(slice)] else []
        else if VerdictOn(cfg, apm, s, f) == E.SpeechStarted then [SpeechStarted(f.at)]
        else if CutByMute(s, f) then [SpeechEnded(f.at)]
        else []
  {
    var w := B.RunBoth(cfg, bcfg, apm, es);
    B.EveryWorldIsSound(cfg, bcfg, apm, es);
    AnnouncesIn(cfg, bcfg, apm, w, f, released);
    hide *;
  }

  lemma SliceIsReplied(cfg: Config, bcfg: U.Config, apm: Canceller, w: B.World, f: Frame, released: set<nat>)
    requires BlockSize(cfg) > 0 && B.Sound(cfg, w) && EndsWith(cfg, apm, w.pipeline, f)
    ensures B.Replied(cfg, bcfg, apm, w, f, released).slice == Some(SliceFor(cfg, bcfg, apm, w, f))
  {
    EndIsInSpeech(cfg, apm, w.pipeline, f);
    var samples := B.Through(cfg, apm, w.pipeline, f);
    B.OneOp(w.ops, U.Append(samples));
    U.BufferRefinesHistory(bcfg, B.Fed(w.ops, samples));
    hide U.Run, U.Recording, U.Kept, B.Through, U.Trimmed, EndsWith;
  }

  lemma AnnouncesIn(cfg: Config, bcfg: U.Config, apm: Canceller, w: B.World, f: Frame, released: set<nat>)
    requires BlockSize(cfg) > 0 && B.Sound(cfg, w)
    ensures var slice, s := SliceFor(cfg, bcfg, apm, w, f), w.pipeline;
      EventsOf(B.Effects(cfg, bcfg, apm, w, B.Heard(f, released)).1) ==
        if EndsWith(cfg, apm, s, f) then
          [SpeechEnded(f.at)] + if LoudEnough(cfg.minRms, slice) then [UtteranceReady(slice)] else []
        else if VerdictOn(cfg, apm, s, f) == E.SpeechStarted then [SpeechStarted(f.at)]
        else if CutByMute(s, f) then [SpeechEnded(f.at)]
        else []
  {
    var x := B.Replied(cfg, bcfg, apm, w, f, released);
    FramePublishes(cfg, apm, w.pipeline, x);
    RepliesAreNotSeen(cfg, bcfg, apm, w, f, released);
    if EndsWith(cfg, apm, w.pipeline, f) {
      SliceIsReplied(cfg, bcfg, apm, w, f, released);
    }
    hide EventsOf, FrameStep, Seen, B.Replied, SliceFor, LoudEnough, B.Sound;
  }

  /** Over a run: utterances announced, ends dropped as too quiet, false starts, the last probability, and whether muted. */
  datatype Tally = Tally(announced: nat, quiet: nat, falseStarts: nat, lastP: real, muted: bool)

  function TallyOf(cfg: Config, bcfg: U.Config, apm: Canceller, es: seq<B.Event>): Tally
    requires BlockSize(cfg) > 0
  {
    if es == [] then Tally(0, 0, 0, 0.0, false)
    else
      var front := es[..|es| - 1];
      var t, w := TallyOf(cfg, bcfg, apm, front), B.RunBoth(cfg, bcfg, apm, front);
      match es[|es| - 1]
      case Retuned(_, _, _) => t
      case Heard(f, _) =>
        var o, loud := VerdictOn(cfg, apm, w.pipeline, f), LoudEnough(cfg.minRms, SliceFor(cfg, bcfg, apm, w, f));
        Tally(t.announced + (if o == E.SpeechEnded && loud then 1 else 0),
              t.quiet + (if o == E.SpeechEnded && !loud then 1 else 0),
              t.falseStarts + (if o == E.FalseStart then 1 else 0),
              if IsJudged(cfg, apm, w.pipeline, f) && f.p.Some? then f.p.value else t.lastP,
              f.muted)
  }

  function Counters(s: State): Tally {
    Tally(s.utterances, s.lowRmsDrops, s.falseStarts, s.lastP, s.prevMuted)
  }

  lemma CountsIn(cfg: Config, bcfg: U.Config, apm: Canceller, w: B.World, f: Frame, released: set<nat>)
    requires BlockSize(cfg) > 0 && B.Sound(cfg, w)
    ensures var s, s1 := w.pipeline, B.Next(cfg, bcfg, apm, w, B.Heard(f, released)).pipeline;
      var o, loud := VerdictOn(cfg, apm, s, f), LoudEnough(cfg.minRms, SliceFor(cfg, bcfg, apm, w, f));
      Counters(s1) ==
        Tally(s.utterances + (if o == E.SpeechEnded && loud then 1 else 0),
              s.lowRmsDrops + (if o == E.SpeechEnded && !loud then 1 else 0),
              s.falseStarts + (if o == E.FalseStart then 1 else 0),
              if IsJudged(cfg, apm, s, f) && f.p.Some? then f.p.value else s.lastP,
              f.muted)
  {
    var x := B.Replied(cfg, bcfg, apm, w, f, released);
    FramePublishes(cfg, apm, w.pipeline, x);
    RepliesAreNotSeen(cfg, bcfg, apm, w, f, released);
    if EndsWith(cfg, apm, w.pipeline, f) {
      SliceIsReplied(cfg, bcfg, apm, w, f, released);
    }
    hide EventsOf, FrameStep, Seen, B.Replied, SliceFor, LoudEnough, B.Sound, ToPublish;
  }

  /**
   Over every run of pipeline and buffer: the counters are the numbers of utterances announced,
   of ends dropped as too quiet and of false starts, and the probability that stands in for a
   missing one is the last that came with a judged frame.
   */
  lemma {:induction false} CountersAreTallies(cfg: Config, bcfg: U.Config, apm: Canceller, es: seq<B.Event>)
    requires BlockSize(cfg) > 0
    ensures Counters(B.RunBoth(cfg, bcfg, apm, es).pipeline) == TallyOf(cfg, bcfg, apm, es)
  {
    if es != [] {
      var front := es[..|es| - 1];
      CountersAreTallies(cfg, bcfg, apm, front);
      B.EveryWorldIsSound(cfg, bcfg, apm, front);
      match es[|es| - 1] {
        case Heard(f, released) => CountsIn(cfg, bcfg, apm, B.RunBoth(cfg, bcfg, apm, front), f, released);
        case Retuned(onset, offset, hangover) =>
      }
      hide FrameStep, B.Sound, VerdictOn, LoudEnough, SliceFor, IsJudged, B.OpsOf, B.StartsOf;
    }
  }

  /** A frame's duration is its samples' time in whole milliseconds, and a block is ten of them. */
  lemma DurationsAreTime(cfg: Config, samples: seq<Sample>)
    requires cfg.rate > 0
    ensures FrameMs(cfg, samples) * cfg.rate <= |samples| * 1000 < (FrameMs(cfg, samples) + 1) * cfg.rate
    ensures BlockSize(cfg) * 1000 <= cfg.rate * 10 < (BlockSize(cfg) + 1) * 1000
  {
    var n, r := |samples| * 1000 / cfg.rate, |samples| * 1000 % cfg.rate;
    assert |samples| * 1000 == n * cfg.rate + r;
    assert (n + 1) * cfg.rate == n * cfg.rate + cfg.rate;
  }
}
