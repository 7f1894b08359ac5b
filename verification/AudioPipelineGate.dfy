/**
 When published starts and ends alternate, said of the frames alone: the wake-word gate is
 followed through its stamps, without the endpointer and without the speech flag.
 */
module AudioPipelineGate {
  import opened Samples
  import opened Wrappers
  import opened AudioPipelines
  import opened AudioPipelineTheorems
  import E = Endpointing

  /** The last hit, whether the gate was open on the last frame that came to it, and the carry. */
  datatype Gate = Gate(stamp: int, wasOpen: bool, carry: seq<Sample>, calls: nat)

  /** The samples of a frame that come to the gate, and the carry they leave. */
  function ComesTo(cfg: Config, apm: Canceller, g: Gate, f: Frame): (seq<Sample>, Gate)
    requires BlockSize(cfg) > 0
  {
    if f.muted || f.resampled == [] then ([], g)
    else if f.aec then
      var (bs, rest) := Reblock(BlockSize(cfg), g.carry + f.resampled);
      (Clean(apm, g.calls, bs), g.(carry := rest, calls := g.calls + |bs|))
    else (f.resampled, g)
  }

  function Stamp(g: Gate, f: Frame): int {
    if f.hit then f.at else g.stamp
  }

  predicate IsOpen(cfg: Config, g: Gate, f: Frame) {
    Stamp(g, f) != 0 && f.at - Stamp(g, f) <= cfg.followupMs * NS_PER_MS
  }

  function GateAfter(cfg: Config, apm: Canceller, xs: seq<Input>): Gate
    requires BlockSize(cfg) > 0
  {
    if xs == [] then Gate(0, false, [], 0)
    else
      var g := GateAfter(cfg, apm, xs[..|xs| - 1]);
      match xs[|xs| - 1]
      case Retune(_, _, _) => g
      case Captured(f) =>
        var (samples, g1) := ComesTo(cfg, apm, g, f);
        if samples == [] || !cfg.wakeWord then g1
        else g1.(stamp := Stamp(g, f), wasOpen := IsOpen(cfg, g, f))
  }

  /** Frame k finds that the window of an open gate has run out. */
  predicate RunsOut(cfg: Config, apm: Canceller, xs: seq<Input>, k: nat)
    requires BlockSize(cfg) > 0
  {
    && k < |xs| && xs[k].Captured? && cfg.wakeWord
    && var g := GateAfter(cfg, apm, xs[..k]);
    ComesTo(cfg, apm, g, xs[k].frame).0 != [] && g.wasOpen && !IsOpen(cfg, g, xs[k].frame)
  }

  // ----- the gate of the pipeline -----

  predicate SameGate(s: State, g: Gate) {
    s.gateStamp == g.stamp && s.gateWasOpen == g.wasOpen && s.carry == g.carry && s.calls == g.calls
  }

  lemma JudgeGate(cfg: Config, s: State, x: Frame, samples: seq<Sample>)
    requires cfg.rate > 0
    ensures var s1 := JudgeStep(cfg, s, x, samples).0;
      s1.carry == s.carry && s1.calls == s.calls && s1.gateStamp == s.gateStamp && s1.gateWasOpen == s.gateWasOpen
  {
    hide OnStarted, OnEnded, E.OnFrame;
  }

  lemma DownstreamGate(cfg: Config, s: State, x: Frame, samples: seq<Sample>)
    requires cfg.rate > 0
    ensures var s1, s2 := DownstreamStep(cfg, s, x, samples).0, GateStep(cfg, s, x).0;
      && s1.carry == s.carry && s1.calls == s.calls
      && s1.gateStamp == s2.gateStamp && s1.gateWasOpen == s2.gateWasOpen
  {
    hide JudgeStep;
    JudgeGate(cfg, GateStep(cfg, s, x).0, x, samples);
  }

  /** What the frame steps do to the gate does not depend on anything else. */
  lemma StepGate(cfg: Config, apm: Canceller, s: State, f: Frame, g: Gate)
    requires BlockSize(cfg) > 0 && SameGate(s, g)
    ensures var (samples, g1) := ComesTo(cfg, apm, g, f);
      SameGate(FrameStep(cfg, apm, s, f).0,
               if samples == [] || !cfg.wakeWord then g1
               else g1.(stamp := Stamp(g, f), wasOpen := IsOpen(cfg, g, f)))
  {
    hide DownstreamStep;
    if !f.muted && f.resampled != [] {
      var (s1, samples, calls) := CancelStep(cfg, apm, s.(prevMuted := false), f);
      DownstreamGate(cfg, s1, f, samples);
    }
  }

  lemma {:induction false} GateIsByFrames(cfg: Config, apm: Canceller, xs: seq<Input>)
    requires BlockSize(cfg) > 0
    ensures SameGate(Run(cfg, apm, xs), GateAfter(cfg, apm, xs))
  {
    if xs != [] {
      var front, x := xs[..|xs| - 1], xs[|xs| - 1];
      GateIsByFrames(cfg, apm, front);
      hide FrameStep, ComesTo;
      if x.Captured? {
        StepGate(cfg, apm, Run(cfg, apm, front), x.frame, GateAfter(cfg, apm, front));
      }
    }
  }

  // ----- a frame on which the gate runs out -----

  /** It publishes nothing, and leaves no speech. */
  lemma RunningOut(cfg: Config, apm: Canceller, s: State, f: Frame, g: Gate)
    requires BlockSize(cfg) > 0 && Agrees(s) && SameGate(s, g) && cfg.wakeWord
    requires ComesTo(cfg, apm, g, f).0 != [] && g.wasOpen && !IsOpen(cfg, g, f)
    ensures var (s1, es) := FrameStep(cfg, apm, s, f); Edges(es) == [] && !s1.inSpeech
  {
    hide DownstreamStep, Edges;
    var s0 := s.(prevMuted := false);
    CancelFlag(cfg, apm, s0, f);
    var (s1, samples, calls) := CancelStep(cfg, apm, s0, f);
    CancelEdges(cfg, apm, s0, f, DownstreamStep(cfg, s1, f, samples).1);
    DownstreamEdges(cfg, s1, f, samples);
    ShutIsSilent(cfg, s1, f, samples);
  }

  lemma ShutIsSilent(cfg: Config, s: State, x: Frame, samples: seq<Sample>)
    requires cfg.rate > 0 && s.gateWasOpen && !GateStep(cfg, s, x).1
    ensures !DownstreamStep(cfg, s, x, samples).0.inSpeech
  {
  }

  /** Speech that goes without a published end went because the gate ran out. */
  lemma ExpiryIsRunningOut(cfg: Config, apm: Canceller, s: State, f: Frame, g: Gate)
    requires BlockSize(cfg) > 0 && Agrees(s) && SameGate(s, g)
    requires StepEdges(cfg, apm, s, Captured(f)) == [Expire]
    ensures s.inSpeech && cfg.wakeWord && ComesTo(cfg, apm, g, f).0 != [] && g.wasOpen && !IsOpen(cfg, g, f)
  {
    hide DownstreamStep, Edges, MutedStep;
    StepMoves(cfg, apm, s, Captured(f));
    NoExpiryIsPublished(Step(cfg, apm, s, Captured(f)).1);
    assert s.inSpeech && !FrameStep(cfg, apm, s, f).0.inSpeech && Edges(FrameStep(cfg, apm, s, f).1) == [];
    if f.muted {
      MutedFalls(s, f);
    } else if f.resampled != [] {
      var s0 := s.(prevMuted := false);
      CancelFlag(cfg, apm, s0, f);
      var (s1, samples, calls) := CancelStep(cfg, apm, s0, f);
      CancelEdges(cfg, apm, s0, f, DownstreamStep(cfg, s1, f, samples).1);
      if samples != [] {
        QuietFall(cfg, s1, f, samples);
      }
    }
  }

  lemma MutedFalls(s: State, f: Frame)
    requires s.inSpeech
    ensures !MutedStep(s, f).0.inSpeech ==> Edges(MutedStep(s, f).1) == [Close]
  {
    OneEdge(Published(SpeechEnded(f.at)));
  }

  lemma QuietFall(cfg: Config, s: State, x: Frame, samples: seq<Sample>)
    requires cfg.rate > 0 && Agrees(s) && s.inSpeech && !DownstreamStep(cfg, s, x, samples).0.inSpeech
    requires Edges(DownstreamStep(cfg, s, x, samples).1) == []
    ensures !GateStep(cfg, s, x).1 && s.gateWasOpen
  {
    GateFlag(cfg, s, x);
    var (s1, open) := GateStep(cfg, s, x);
    if open {
      JudgeEdges(cfg, s1, x, samples);
      var first := [Appended(samples)] + if s1.inSpeech && cfg.liveSink then [Streamed(samples)] else [];
      EdgesConcat(first, JudgeStep(cfg, s1, x, samples).1);
    }
  }

  // ----- the histories -----

  lemma {:induction false} Prefixes(cfg: Config, apm: Canceller, xs: seq<Input>, k: nat)
    requires BlockSize(cfg) > 0 && k <= |xs|
    ensures History(cfg, apm, xs[..k]) <= History(cfg, apm, xs)
    ensures Announced(cfg, apm, xs[..k]) <= Announced(cfg, apm, xs)
    decreases |xs|
  {
    if k == |xs| {
      assert xs[..k] == xs;
    } else {
      hide StepEdges, Edges;
      var front := xs[..|xs| - 1];
      assert front[..k] == xs[..k];
      Prefixes(cfg, apm, front, k);
    }
  }

  /** One more input, in both histories. */
  lemma OneMore(cfg: Config, apm: Canceller, xs: seq<Input>, k: nat)
    requires BlockSize(cfg) > 0 && k < |xs|
    ensures var s := Run(cfg, apm, xs[..k]);
      && Run(cfg, apm, xs[..k + 1]) == Step(cfg, apm, s, xs[k]).0
      && History(cfg, apm, xs[..k + 1]) == History(cfg, apm, xs[..k]) + StepEdges(cfg, apm, s, xs[k])
      && Announced(cfg, apm, xs[..k + 1]) == Announced(cfg, apm, xs[..k]) + Edges(Step(cfg, apm, s, xs[k]).1)
  {
    hide StepEdges, Edges, Step;
    assert xs[..k + 1][..k] == xs[..k];
  }

  /** Every edge of a history was put there by an input. */
  lemma {:induction false} EdgeHasInput(cfg: Config, apm: Canceller, xs: seq<Input>, i: nat) returns (k: nat)
    requires BlockSize(cfg) > 0 && i < |History(cfg, apm, xs)|
    ensures k < |xs| && |History(cfg, apm, xs[..k])| == i
    ensures StepEdges(cfg, apm, Run(cfg, apm, xs[..k]), xs[k]) == [History(cfg, apm, xs)[i]]
  {
    hide StepEdges, Step;
    var front := xs[..|xs| - 1];
    var h := History(cfg, apm, front);
    if i < |h| {
      k := EdgeHasInput(cfg, apm, front, i);
      assert front[..k] == xs[..k];
    } else {
      k := |xs| - 1;
      FlagTracksEndpointer(cfg, apm, front);
      StepAlternates(cfg, apm, Run(cfg, apm, front), xs[k]);
    }
  }

  // ----- alternation -----

  /** The endpointer as the inputs it was shown up to k leave it. */
  function EndpointerAt(cfg: Config, apm: Canceller, xs: seq<Input>, k: nat): E.State
    requires BlockSize(cfg) > 0 && k <= |xs|
  {
    E.Run(E.Initial(cfg.endpointer), SeenByEndpointer(cfg, apm, xs[..k]))
  }

  /** With input k a candidate of the endpointer's matures. */
  ghost predicate Starts(cfg: Config, apm: Canceller, xs: seq<Input>, k: nat)
    requires BlockSize(cfg) > 0
  {
    && k < |xs| && EndpointerAt(cfg, apm, xs, k).phase == E.Onset
    && var seen, more := SeenByEndpointer(cfg, apm, xs[..k]), Seen(cfg, apm, Run(cfg, apm, xs[..k]), xs[k]);
    && |more| == 1
    && E.Matures(cfg.endpointer.minSpeech, E.Marks(cfg.endpointer, seen + [more[0]]),
                 E.PlacesAfter(cfg.endpointer, seen).begun)
  }

  /** Frame k runs out the gate during an utterance of the endpointer's, and a later candidate matures. */
  ghost predicate Breaks(cfg: Config, apm: Canceller, xs: seq<Input>, k: nat, j: nat)
    requires BlockSize(cfg) > 0
  {
    && k < j < |xs| && RunsOut(cfg, apm, xs, k) && InUtterance(EndpointerAt(cfg, apm, xs, k))
    && Starts(cfg, apm, xs, j)
  }

  lemma RiseIsStart(e: E.State, x: E.Input)
    ensures E.Step(e, x).1 == E.SpeechStarted <==> !InUtterance(e) && InUtterance(E.Step(e, x).0)
  {
  }

  /** A start is published exactly when the endpointer is shown one input, and reports it. */
  lemma OpeningIsReported(cfg: Config, apm: Canceller, s: State, x: Input)
    requires BlockSize(cfg) > 0 && Agrees(s)
    ensures var more := Seen(cfg, apm, s, x);
      |more| <= 1 && (StepEdges(cfg, apm, s, x) == [Open] <==> |more| == 1 && E.Step(s.endpointer, more[0]).1 == E.SpeechStarted)
  {
    StepKeepsFlag(cfg, apm, s, x);
    StepAlternates(cfg, apm, s, x);
    hide StepEdges, Step, Seen, E.Step, InUtterance;
    var more := Seen(cfg, apm, s, x);
    if more != [] {
      RiseIsStart(s.endpointer, more[0]);
    }
  }

  lemma StartsAreOpenings(cfg: Config, apm: Canceller, xs: seq<Input>, k: nat)
    requires BlockSize(cfg) > 0 && k < |xs|
    ensures Starts(cfg, apm, xs, k) <==> StepEdges(cfg, apm, Run(cfg, apm, xs[..k]), xs[k]) == [Open]
  {
    FlagTracksEndpointer(cfg, apm, xs[..k]);
    var s := Run(cfg, apm, xs[..k]);
    OpeningIsReported(cfg, apm, s, xs[k]);
    hide StepEdges, Run, Seen, SeenByEndpointer, E.Matures, E.Run, E.Step, E.Marks, E.PlacesAfter;
    var more := Seen(cfg, apm, s, xs[k]);
    if |more| == 1 {
      E.StartsAreBacked(cfg.endpointer, SeenByEndpointer(cfg, apm, xs[..k]), more[0]);
    }
  }

  lemma ExpiryIsRunningOutAt(cfg: Config, apm: Canceller, xs: seq<Input>, k: nat)
    requires BlockSize(cfg) > 0 && k < |xs|
    ensures RunsOut(cfg, apm, xs, k) && InUtterance(EndpointerAt(cfg, apm, xs, k))
       <==> StepEdges(cfg, apm, Run(cfg, apm, xs[..k]), xs[k]) == [Expire]
  {
    var s := Run(cfg, apm, xs[..k]);
    GateIsByFrames(cfg, apm, xs[..k]);
    FlagTracksEndpointer(cfg, apm, xs[..k]);
    hide Edges, FrameStep, Run, GateAfter, ComesTo, SeenByEndpointer;
    match xs[k] {
      case Captured(f) =>
        if RunsOut(cfg, apm, xs, k) {
          RunningOut(cfg, apm, s, f, GateAfter(cfg, apm, xs[..k]));
        }
        if StepEdges(cfg, apm, s, xs[k]) == [Expire] {
          ExpiryIsRunningOut(cfg, apm, s, f, GateAfter(cfg, apm, xs[..k]));
        }
      case Retune(_, _, _) => RetuneIsQuiet(cfg, apm, s, xs[k]);
    }
  }

  lemma RetuneIsQuiet(cfg: Config, apm: Canceller, s: State, x: Input)
    requires BlockSize(cfg) > 0 && x.Retune?
    ensures StepEdges(cfg, apm, s, x) == []
  {
  }

  lemma Behind(h0: seq<Edge>, h1: seq<Edge>, h: seq<Edge>, a: Edge, b: Edge)
    requires h0 + [a] <= h1 && h1 + [b] <= h
    ensures |h0| + 1 < |h| && h[|h0|] == a
  {
    assert (h0 + [a])[|h0|] == h1[|h0|] == (h1 + [b])[|h0|];
  }

  lemma Earlier(cfg: Config, apm: Canceller, xs: seq<Input>, k: nat, j: nat)
    requires BlockSize(cfg) > 0 && j <= k <= |xs|
    ensures History(cfg, apm, xs[..j]) <= History(cfg, apm, xs[..k])
  {
    Prefixes(cfg, apm, xs[..k], j);
    assert xs[..k][..j] == xs[..j];
  }

  /** An expiry inside the history is such a frame. */
  lemma ExpiryBreaks(cfg: Config, apm: Canceller, xs: seq<Input>, i: nat) returns (k: nat, j: nat)
    requires BlockSize(cfg) > 0 && i + 1 < |History(cfg, apm, xs)| && History(cfg, apm, xs)[i] == Expire
    ensures Breaks(cfg, apm, xs, k, j)
  {
    hide History, StepEdges, RunsOut, Starts, Run, EndpointerAt, InUtterance;
    k := EdgeHasInput(cfg, apm, xs, i);
    j := EdgeHasInput(cfg, apm, xs, i + 1);
    EveryRunAlternates(cfg, apm, xs);
    NextIsOpen(History(cfg, apm, xs), i);
    ExpiryIsRunningOutAt(cfg, apm, xs, k);
    StartsAreOpenings(cfg, apm, xs, j);
    if j <= k {
      Earlier(cfg, apm, xs, k, j);
      assert false;
    }
  }

  lemma NextIsOpen(h: seq<Edge>, i: nat)
    requires Alternates(h) && i + 1 < |h| && h[i] == Expire
    ensures h[i + 1] == Open
  {
    assert i % 2 == 1;
  }

  lemma BreaksIsExpiry(cfg: Config, apm: Canceller, xs: seq<Input>, k: nat, j: nat)
    requires BlockSize(cfg) > 0
    ensures Breaks(cfg, apm, xs, k, j) ==>
      var h, i := History(cfg, apm, xs), |History(cfg, apm, xs[..k])|; i + 1 < |h| && h[i] == Expire
  {
    hide History, Announced, StepEdges, RunsOut, Starts, Run, EndpointerAt, InUtterance, Step;
    if Breaks(cfg, apm, xs, k, j) {
      ExpiryIsRunningOutAt(cfg, apm, xs, k);
      StartsAreOpenings(cfg, apm, xs, j);
      OneMore(cfg, apm, xs, k);
      Earlier(cfg, apm, xs, j, k + 1);
      EdgesStay(cfg, apm, xs, j);
      Behind(History(cfg, apm, xs[..k]), History(cfg, apm, xs[..j]), History(cfg, apm, xs), Expire, Open);
    }
  }

  lemma EdgesStay(cfg: Config, apm: Canceller, xs: seq<Input>, j: nat)
    requires BlockSize(cfg) > 0 && j < |xs|
    ensures History(cfg, apm, xs[..j]) + StepEdges(cfg, apm, Run(cfg, apm, xs[..j]), xs[j]) <= History(cfg, apm, xs)
  {
    hide History, Announced, StepEdges, Run, Step;
    OneMore(cfg, apm, xs, j);
    Prefixes(cfg, apm, xs, j + 1);
  }

  /**
   For all frames, mutes, gates and thresholds: published starts and ends alternate strictly
   if and only if no frame runs out the gate's window during an utterance of the endpointer's
   with another candidate maturing later.
   */
  lemma AlternatesExactlyWhen(cfg: Config, apm: Canceller, xs: seq<Input>)
    requires BlockSize(cfg) > 0
    ensures Alternates(Announced(cfg, apm, xs)) <==> forall k: nat, j: nat :: !Breaks(cfg, apm, xs, k, j)
  {
    hide Announced, History, Breaks;
    PublishedStartsAndEndsAlternate(cfg, apm, xs);
    var h, a := History(cfg, apm, xs), Announced(cfg, apm, xs);
    if !Alternates(a) {
      var i :| 0 <= i < |h| - 1 && h[i] == Expire;
      var k, j := ExpiryBreaks(cfg, apm, xs, i);
    }
    if k: nat, j: nat :| Breaks(cfg, apm, xs, k, j) {
      BreaksIsExpiry(cfg, apm, xs, k, j);
    }
  }

  // ----- a run in which they do not alternate -----

  const WITNESS := Config(E.Config(0.5, 0.25, 0, 600), 1000, true, 1, 1, 0, true)

  /** A captured frame of a millisecond for each sample, with or without the wake word. */
  function Spoken(at: int, hit: bool, v: seq<Sample>): Frame {
    Frame(at, false, v, false, hit, Some(1.0), [], None)
  }

  /** A frame but for what the buffer replies. */
  predicate Like(x: Frame, f: Frame) {
    x == f.(prePad := x.prePad, slice := x.slice)
  }

  /** The endpointer's phase, and what goes with it. */
  predicate In(s: State, phase: E.Phase) {
    s.endpointer.phase == phase && s.endpointer.cfg == WITNESS.endpointer && (s.inSpeech <==> phase == E.Speaking)
  }

  lemma CandidateBegins(s: State, x: Frame, v: seq<Sample>)
    requires In(s, E.Quiet) && x.p == Some(1.0)
    ensures var s1 := JudgeStep(WITNESS, s, x, v).0;
      In(s1, E.Onset) && s1.gateStamp == s.gateStamp && s1.gateWasOpen == s.gateWasOpen
  {
    hide FrameMs;
  }

  /** With the wake word heard: a candidate, then a start. */
  lemma HeardOnce(apm: Canceller, s: State, x: Frame, at: int, v: seq<Sample>)
    requires at != 0 && In(s, E.Quiet) && Like(x, Spoken(at, true, v)) && v != []
    ensures var (s1, es) := FrameStep(WITNESS, apm, s, x);
      In(s1, E.Onset) && Edges(es) == [] && s1.gateStamp == at && s1.gateWasOpen
  {
    StepMoves(WITNESS, apm, s, Captured(x));
    hide Edges, JudgeStep;
    CandidateBegins(GateStep(WITNESS, s.(prevMuted := false), x).0, x, v);
  }

  lemma HeardAgain(apm: Canceller, s: State, x: Frame, at: int, v: seq<Sample>)
    requires at != 0 && In(s, E.Onset) && Like(x, Spoken(at, true, v)) && v != []
    ensures var (s1, es) := FrameStep(WITNESS, apm, s, x);
      In(s1, E.Speaking) && Edges(es) == [Open] && s1.gateStamp == at && s1.gateWasOpen
  {
    StepMoves(WITNESS, apm, s, Captured(x));
    hide Edges, OnStarted;
  }

  /** Without it, more than a millisecond later: nothing more. */
  lemma NotHeard(apm: Canceller, s: State, x: Frame, at: int, v: seq<Sample>)
    requires In(s, E.Speaking) && s.gateWasOpen && at - s.gateStamp > NS_PER_MS && Like(x, Spoken(at, false, v)) && v != []
    ensures var (s1, es) := FrameStep(WITNESS, apm, s, x); In(s1, E.Quiet) && Edges(es) == [] && !s1.gateWasOpen
  {
    OneEdge(Appended(v));
    assert [] + [Appended(v)] == [Appended(v)];
  }

  lemma RunOnce(apm: Canceller, xs: seq<Input>, f: Frame)
    ensures var s := Run(WITNESS, apm, xs);
      && Run(WITNESS, apm, xs + [Captured(f)]) == FrameStep(WITNESS, apm, s, f).0
      && Announced(WITNESS, apm, xs + [Captured(f)])
           == Announced(WITNESS, apm, xs) + Edges(FrameStep(WITNESS, apm, s, f).1)
  {
    hide FrameStep, Edges;
    assert (xs + [Captured(f)])[..|xs|] == xs;
  }

  // Heard twice, then no wake word until its window is over; then the same words again.
  const F1 := Spoken(1, true, [1])
  const F2 := Spoken(2, true, [2])
  const F3 := Spoken(3 * NS_PER_MS, false, [3])
  const F4 := Spoken(4 * NS_PER_MS, true, [4])
  const F5 := Spoken(5 * NS_PER_MS, true, [5])

  const FIRST: seq<Input> := [] + [Captured(F1)] + [Captured(F2)] + [Captured(F3)]

  lemma SpeechAndExpiry(apm: Canceller)
    ensures In(Run(WITNESS, apm, FIRST), E.Quiet) && Announced(WITNESS, apm, FIRST) == [Open]
  {
    var none: seq<Input> := [];
    AtFirst(apm);
    hide FrameStep, Edges, Run, Announced, In;
    RunOnce(apm, none, F1);
    HeardOnce(apm, Run(WITNESS, apm, none), F1, 1, [1]);
    RunOnce(apm, none + [Captured(F1)], F2);
    HeardAgain(apm, Run(WITNESS, apm, none + [Captured(F1)]), F2, 2, [2]);
    RunOnce(apm, none + [Captured(F1)] + [Captured(F2)], F3);
    NotHeard(apm, Run(WITNESS, apm, none + [Captured(F1)] + [Captured(F2)]), F3, 3 * NS_PER_MS, [3]);
  }

  lemma AtFirst(apm: Canceller)
    ensures In(Run(WITNESS, apm, []), E.Quiet) && Announced(WITNESS, apm, []) == []
  {
  }

  /** Two starts are published in a row: the gate runs out during speech, and speech starts again. */
  lemma TwoStartsInARow(apm: Canceller)
    ensures Announced(WITNESS, apm, FIRST + [Captured(F4)] + [Captured(F5)]) == [Open, Open]
  {
    SpeechAndExpiry(apm);
    hide FrameStep, Edges, Run, Announced, In;
    RunOnce(apm, FIRST, F4);
    HeardOnce(apm, Run(WITNESS, apm, FIRST), F4, 4 * NS_PER_MS, [4]);
    RunOnce(apm, FIRST + [Captured(F4)], F5);
    HeardAgain(apm, Run(WITNESS, apm, FIRST + [Captured(F4)]), F5, 5 * NS_PER_MS, [5]);
  }
}
