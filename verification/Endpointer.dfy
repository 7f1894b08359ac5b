/**
 The voice endpointer (src/audio/endpointer.cpp): per-frame speech probabilities drive
 Quiet, Onset, Speaking and Endpoint. Probabilities and thresholds are reals, durations
 are milliseconds. Its outcomes are related to the evidence in the whole input history.
 */
module Endpointing {
  datatype Config = Config(onset: real, offset: real, minSpeech: nat, hangover: nat)

  datatype Phase = Quiet | Onset | Speaking | Endpoint

  datatype State = State(cfg: Config, phase: Phase, speechDur: nat, quietDur: nat, startedAt: int, endedAt: int)

  datatype Outcome = Nothing | SpeechStarted | FalseStart | SpeechEnded

  /** Force cuts the utterance short; Retune is the hot update of three thresholds. */
  datatype Input =
    | Frame(p: real, duration: nat, time: int)
    | Force(now: int)
    | Retune(onset: real, offset: real, hangover: nat)
    | Reset

  const NO_TIME: int := 0

  function Initial(cfg: Config): State {
    State(cfg, Quiet, 0, 0, NO_TIME, NO_TIME)
  }

  function OnFrame(s: State, p: real, d: nat, t: int): (State, Outcome) {
    var above, below := p >= s.cfg.onset, p < s.cfg.offset;
    match s.phase
    case Quiet =>
      (if above then s.(phase := Onset, speechDur := d, quietDur := 0, startedAt := t) else s, Nothing)
    case Onset =>
      if above then
        var s1 := s.(speechDur := s.speechDur + d);
        if s1.speechDur >= s.cfg.minSpeech then (s1.(phase := Speaking, quietDur := 0), SpeechStarted)
        else (s1, Nothing)
      else if below then
        (s.(phase := Quiet, speechDur := 0, quietDur := 0, startedAt := NO_TIME), FalseStart)
      else (s, Nothing)
    case Speaking =>
      if above then (s.(speechDur := s.speechDur + d, quietDur := 0), Nothing)
      else if below then (s.(phase := Endpoint, quietDur := d, endedAt := t), Nothing)
      else (s.(speechDur := s.speechDur + d), Nothing)
    case Endpoint =>
      if above then
        (s.(phase := Speaking, speechDur := s.speechDur + d, quietDur := 0, endedAt := NO_TIME), Nothing)
      else
        var s1 := s.(quietDur := s.quietDur + d);
        if s1.quietDur >= s.cfg.hangover then (s1.(phase := Quiet), SpeechEnded) else (s1, Nothing)
  }

  function ForceEndpoint(s: State, now: int): (State, Outcome) {
    match s.phase
    case Quiet => (s, Nothing)
    case Onset => (s.(phase := Quiet), FalseStart)
    case _ => (s.(phase := Quiet, endedAt := now), SpeechEnded)
  }

  function Retuned(cfg: Config, onset: real, offset: real, hangover: nat): Config {
    cfg.(onset := onset, offset := offset, hangover := hangover)
  }

  function Step(s: State, x: Input): (State, Outcome) {
    match x
    case Frame(p, d, t) => OnFrame(s, p, d, t)
    case Force(now) => ForceEndpoint(s, now)
    case Retune(onset, offset, hangover) => (s.(cfg := Retuned(s.cfg, onset, offset, hangover)), Nothing)
    case Reset => (Initial(s.cfg), Nothing)
  }

  function Run(s: State, xs: seq<Input>): State {
    if xs == [] then s else Step(Run(s, xs[..|xs| - 1]), xs[|xs| - 1]).0
  }

  class Endpointer {
    var cfg: Config
    var phase: Phase
    var speechDur: nat
    var quietDur: nat
    var startedAt: int
    var endedAt: int

    ghost function Now(): State
      reads this
    {
      State(cfg, phase, speechDur, quietDur, startedAt, endedAt)
    }

    constructor (cfg: Config)
      ensures Now() == Initial(cfg)
    {
      this.cfg := cfg;
      phase, speechDur, quietDur, startedAt, endedAt := Quiet, 0, 0, NO_TIME, NO_TIME;
    }

    method ResetState()
      modifies this
      ensures Now() == Step(old(Now()), Reset).0
    {
      phase, speechDur, quietDur, startedAt, endedAt := Quiet, 0, 0, NO_TIME, NO_TIME;
    }

    method HandleFrame(p: real, duration: nat, time: int) returns (r: Outcome)
      modifies this
      ensures (Now(), r) == Step(old(Now()), Frame(p, duration, time))
    {
      var aboveOnset := p >= cfg.onset;
      var belowOffset := p < cfg.offset;
      r := Nothing;
      match phase {
        case Quiet =>
          if aboveOnset {
            phase, speechDur, quietDur, startedAt := Onset, duration, 0, time;
          }
        case Onset =>
          if aboveOnset {
            speechDur := speechDur + duration;
            if speechDur >= cfg.minSpeech {
              phase, quietDur := Speaking, 0;
              r := SpeechStarted;
            }
          } else if belowOffset {
            phase, speechDur, quietDur, startedAt := Quiet, 0, 0, NO_TIME;
            r := FalseStart;
          }
        case Speaking =>
          if aboveOnset {
            speechDur := speechDur + duration;
            quietDur := 0;
          } else if belowOffset {
            phase, quietDur, endedAt := Endpoint, duration, time;
          } else {
            speechDur := speechDur + duration;
          }
        case Endpoint =>
          if aboveOnset {
            phase, quietDur, endedAt := Speaking, 0, NO_TIME;
            speechDur := speechDur + duration;
          } else {
            quietDur := quietDur + duration;
            if quietDur >= cfg.hangover {
              phase := Quiet;
              r := SpeechEnded;
            }
          }
      }
    }

    method UpdateThresholds(onset: real, offset: real, hangover: nat)
      modifies this`cfg
      ensures Now() == Step(old(Now()), Retune(onset, offset, hangover)).0
    {
      cfg := cfg.(onset := onset, offset := offset, hangover := hangover);
    }

    method ForceEnd(now: int) returns (r: Outcome)
      modifies this`phase, this`endedAt
      ensures (Now(), r) == Step(old(Now()), Force(now))
    {
      if phase == Speaking || phase == Endpoint {
        endedAt, phase := now, Quiet;
        return SpeechEnded;
      }
      if phase == Onset {
        phase := Quiet;
        return FalseStart;
      }
      return Nothing;
    }
  }

  // ----- the evidence in a history -----

  /** An input as the thresholds of its own moment judge it. */
  datatype Mark = Heard(above: bool, below: bool, duration: nat, time: int) | Cut | Other

  function MarkOf(cfg: Config, x: Input): Mark {
    match x
    case Frame(p, d, t) => Heard(p >= cfg.onset, p < cfg.offset, d, t)
    case Retune(_, _, _) => Other
    case _ => Cut
  }

  function ConfigAfter(cfg: Config, xs: seq<Input>): Config {
    if xs == [] then cfg
    else
      var c := ConfigAfter(cfg, xs[..|xs| - 1]);
      match xs[|xs| - 1]
      case Retune(onset, offset, hangover) => Retuned(c, onset, offset, hangover)
      case _ => c
  }

  function Marks(cfg: Config, xs: seq<Input>): (ms: seq<Mark>)
    ensures |ms| == |xs|
  {
    if xs == [] then []
    else Marks(cfg, xs[..|xs| - 1]) + [MarkOf(ConfigAfter(cfg, xs[..|xs| - 1]), xs[|xs| - 1])]
  }

  predicate Above(m: Mark) {
    m.Heard? && m.above
  }

  predicate Low(m: Mark) {
    m.Heard? && m.below && !m.above
  }

  // From mark i on: the time heard above onset, the number of such frames, and the time heard at all.
  function AboveTime(ms: seq<Mark>, i: nat): nat {
    if |ms| <= i then 0
    else AboveTime(ms[..|ms| - 1], i) + if Above(ms[|ms| - 1]) then ms[|ms| - 1].duration else 0
  }

  function AboveCount(ms: seq<Mark>, i: nat): nat {
    if |ms| <= i then 0
    else AboveCount(ms[..|ms| - 1], i) + if Above(ms[|ms| - 1]) then 1 else 0
  }

  function HeardTime(ms: seq<Mark>, i: nat): nat {
    if |ms| <= i then 0
    else HeardTime(ms[..|ms| - 1], i) + if ms[|ms| - 1].Heard? then ms[|ms| - 1].duration else 0
  }

  /** A candidate utterance since mark i: begun above onset, never low, never cut. */
  ghost predicate Candidate(ms: seq<Mark>, i: nat) {
    i < |ms| && Above(ms[i]) && forall k | i < k < |ms| :: !Low(ms[k]) && !ms[k].Cut?
  }

  /** A candidate that has not been heard for long enough, or only once. */
  ghost predicate Immature(min: nat, ms: seq<Mark>, i: nat) {
    Candidate(ms, i) && (AboveTime(ms, i) < min || AboveCount(ms, i) == 1)
  }

  /** The last mark is the one with which the candidate since i has been heard for long enough. */
  ghost predicate Matures(min: nat, ms: seq<Mark>, i: nat) {
    && |ms| > 0 && Candidate(ms, i) && Above(ms[|ms| - 1])
    && AboveTime(ms, i) >= min && Immature(min, ms[..|ms| - 1], i)
  }

  /** Silence since mark i: begun low, never above onset, never cut. */
  ghost predicate Silence(ms: seq<Mark>, i: nat) {
    i < |ms| && Low(ms[i]) && forall k | i < k < |ms| :: !Above(ms[k]) && !ms[k].Cut?
  }

  /** Where in the history the current utterance began, matured, and last fell silent. */
  datatype Places = Places(begun: nat, matured: nat, silent: nat)

  /** The places after one more input, which has index n. */
  function Moved(s: State, w: Places, x: Input, n: nat): Places {
    var s1 := Step(s, x).0;
    if s.phase == Quiet && s1.phase == Onset then w.(begun := n)
    else if s.phase == Onset && s1.phase == Speaking then w.(matured := n)
    else if s.phase == Speaking && s1.phase == Endpoint then w.(silent := n)
    else w
  }

  function PlacesAfter(cfg: Config, xs: seq<Input>): Places {
    if xs == [] then Places(0, 0, 0)
    else
      var front := xs[..|xs| - 1];
      Moved(Run(Initial(cfg), front), PlacesAfter(cfg, front), xs[|xs| - 1], |front|)
  }

  /** An utterance that matured at w.matured and was never cut. */
  ghost predicate InUtterance(min: nat, ms: seq<Mark>, w: Places) {
    && w.begun < w.matured < |ms| && Matures(min, ms[..w.matured + 1], w.begun)
    && forall k | w.matured < k < |ms| :: !ms[k].Cut?
  }

  ghost predicate Inv(s: State, ms: seq<Mark>, w: Places) {
    match s.phase
    case Quiet => true
    case Onset =>
      && Immature(s.cfg.minSpeech, ms, w.begun)
      && s.speechDur == AboveTime(ms, w.begun) && s.startedAt == ms[w.begun].time
    case Speaking =>
      && InUtterance(s.cfg.minSpeech, ms, w) && s.startedAt == ms[w.begun].time
    case Endpoint =>
      && InUtterance(s.cfg.minSpeech, ms, w) && s.startedAt == ms[w.begun].time
      && w.matured < w.silent && Silence(ms, w.silent)
      && s.quietDur == HeardTime(ms, w.silent) && s.endedAt == ms[w.silent].time
  }

  lemma Prefixes(ms: seq<Mark>, m: Mark, i: nat)
    ensures (ms + [m])[..|ms|] == ms && (ms + [m])[|ms|] == m
    ensures i <= |ms| ==> AboveTime(ms + [m], i) == AboveTime(ms, i) + if Above(m) then m.duration else 0
    ensures i <= |ms| ==> AboveCount(ms + [m], i) == AboveCount(ms, i) + if Above(m) then 1 else 0
    ensures i <= |ms| ==> HeardTime(ms + [m], i) == HeardTime(ms, i) + if m.Heard? then m.duration else 0
  {
    assert (ms + [m])[..|ms + [m]| - 1] == ms;
  }

  lemma {:induction false} NothingYet(ms: seq<Mark>, i: nat)
    requires |ms| <= i
    ensures AboveTime(ms, i) == AboveCount(ms, i) == HeardTime(ms, i) == 0
  {
  }

  lemma {:induction false} FirstIsCounted(ms: seq<Mark>, i: nat)
    requires i < |ms| && Above(ms[i])
    ensures AboveCount(ms, i) >= 1
    decreases |ms|
  {
    if i < |ms| - 1 {
      FirstIsCounted(ms[..|ms| - 1], i);
    }
  }

  lemma QuietStep(s: State, ms: seq<Mark>, w: Places, x: Input)
    requires s.phase == Quiet
    ensures Inv(Step(s, x).0, ms + [MarkOf(s.cfg, x)], Moved(s, w, x, |ms|))
  {
    Prefixes(ms, MarkOf(s.cfg, x), |ms|);
    NothingYet(ms, |ms|);
  }

  lemma OnsetStep(s: State, ms: seq<Mark>, w: Places, x: Input)
    requires s.phase == Onset && Inv(s, ms, w)
    ensures Inv(Step(s, x).0, ms + [MarkOf(s.cfg, x)], Moved(s, w, x, |ms|))
    ensures Step(s, x).1 == SpeechStarted <==> Matures(s.cfg.minSpeech, ms + [MarkOf(s.cfg, x)], w.begun)
  {
    var ms1 := ms + [MarkOf(s.cfg, x)];
    Prefixes(ms, MarkOf(s.cfg, x), w.begun);
    FirstIsCounted(ms, w.begun);
    assert ms1[..|ms1| - 1] == ms;
    assert ms1[..|ms| + 1] == ms1;
  }

  lemma UtteranceGoesOn(min: nat, ms: seq<Mark>, w: Places, m: Mark)
    requires InUtterance(min, ms, w) && !m.Cut?
    ensures InUtterance(min, ms + [m], w)
  {
    assert (ms + [m])[..w.matured + 1] == ms[..w.matured + 1];
  }

  lemma SpeakingStep(s: State, ms: seq<Mark>, w: Places, x: Input)
    requires s.phase == Speaking && Inv(s, ms, w)
    ensures Inv(Step(s, x).0, ms + [MarkOf(s.cfg, x)], Moved(s, w, x, |ms|))
  {
    var m := MarkOf(s.cfg, x);
    Prefixes(ms, m, |ms|);
    NothingYet(ms, |ms|);
    if !m.Cut? {
      UtteranceGoesOn(s.cfg.minSpeech, ms, w, m);
      UtteranceGoesOn(s.cfg.minSpeech, ms, w.(silent := |ms|), m);
    }
  }

  lemma EndpointStep(s: State, ms: seq<Mark>, w: Places, x: Input)
    requires s.phase == Endpoint && Inv(s, ms, w)
    ensures Inv(Step(s, x).0, ms + [MarkOf(s.cfg, x)], Moved(s, w, x, |ms|))
  {
    var m := MarkOf(s.cfg, x);
    Prefixes(ms, m, w.silent);
    if !m.Cut? {
      UtteranceGoesOn(s.cfg.minSpeech, ms, w, m);
    }
  }

  /** In every history the state is backed by the evidence, at places the history itself determines. */
  lemma {:induction false} StateIsBacked(cfg: Config, xs: seq<Input>)
    ensures Inv(Run(Initial(cfg), xs), Marks(cfg, xs), PlacesAfter(cfg, xs))
    ensures Run(Initial(cfg), xs).cfg == ConfigAfter(cfg, xs)
    ensures ConfigAfter(cfg, xs).minSpeech == cfg.minSpeech
  {
    if xs != [] {
      var front, x := xs[..|xs| - 1], xs[|xs| - 1];
      StateIsBacked(cfg, front);
      var s, ms, w := Run(Initial(cfg), front), Marks(cfg, front), PlacesAfter(cfg, front);
      match s.phase {
        case Quiet => QuietStep(s, ms, w, x);
        case Onset => OnsetStep(s, ms, w, x);
        case Speaking => SpeakingStep(s, ms, w, x);
        case Endpoint => EndpointStep(s, ms, w, x);
      }
    }
  }

  lemma UpdateStep(s: State, x: Input)
    ensures var c := Step(s, x).0.cfg;
      if x.Retune? then c == Config(x.onset, x.offset, s.cfg.minSpeech, x.hangover) else c == s.cfg
  {
  }

  lemma {:induction false} UpdatesOnly(s: State, xs: seq<Input>)
    ensures Run(s, xs).cfg.minSpeech == s.cfg.minSpeech
    ensures (forall x | x in xs :: !x.Retune?) ==> Run(s, xs).cfg == s.cfg
  {
    if xs != [] {
      UpdatesOnly(s, xs[..|xs| - 1]);
      UpdateStep(Run(s, xs[..|xs| - 1]), xs[|xs| - 1]);
      hide Step;
    }
  }

  /** The thresholds in force are those of the last update, each in its place; none changes the minimum. */
  lemma {:induction false} LastUpdateCounts(s: State, xs: seq<Input>, onset: real, offset: real, hangover: nat, ys: seq<Input>)
    requires forall y | y in ys :: !y.Retune?
    ensures Run(s, xs + [Retune(onset, offset, hangover)] + ys).cfg == Config(onset, offset, s.cfg.minSpeech, hangover)
    ensures Run(s, ys).cfg == s.cfg
    decreases |ys|
  {
    hide Step;
    var front := xs + [Retune(onset, offset, hangover)];
    UpdatesOnly(s, ys);
    if ys == [] {
      assert front + ys == front && front[..|xs|] == xs;
      UpdatesOnly(s, xs);
      UpdateStep(Run(s, xs), front[|xs|]);
    } else {
      var last := ys[|ys| - 1];
      assert (front + ys)[..|front + ys| - 1] == front + ys[..|ys| - 1];
      LastUpdateCounts(s, xs, onset, offset, hangover, ys[..|ys| - 1]);
      UpdateStep(Run(s, front + ys[..|ys| - 1]), last);
    }
  }

  /** An outcome is reported with the change of phase it stands for, and with no other; an end is stamped. */
  lemma OutcomesArePhaseChanges(s: State, x: Input)
    requires !x.Reset?
    ensures var (s', o) := Step(s, x);
      && (o == SpeechStarted <==> s.phase == Onset && s'.phase == Speaking)
      && (o == FalseStart <==> s.phase == Onset && s'.phase == Quiet)
      && (o == SpeechEnded <==> (s.phase == Speaking || s.phase == Endpoint) && s'.phase == Quiet)
      && (o == SpeechEnded ==> s'.endedAt == if x.Force? then x.now else s.endedAt)
  {
  }

  lemma LastMark(cfg: Config, xs: seq<Input>, x: Input)
    ensures Marks(cfg, xs + [x]) == Marks(cfg, xs) + [MarkOf(ConfigAfter(cfg, xs), x)]
  {
    assert (xs + [x])[..|xs|] == xs;
  }

  /**
   A start is reported exactly when a candidate matures: at least two frames above onset,
   together at least the minimum, since a frame above onset, with no frame below offset and
   no cut in between; and not one frame later.
   */
  lemma StartsAreBacked(cfg: Config, xs: seq<Input>, x: Input)
    ensures var s := Run(Initial(cfg), xs);
      Step(s, x).1 == SpeechStarted <==>
        && s.phase == Onset
        && Matures(cfg.minSpeech, Marks(cfg, xs + [x]), PlacesAfter(cfg, xs).begun)
  {
    StateIsBacked(cfg, xs);
    LastMark(cfg, xs, x);
    var s := Run(Initial(cfg), xs);
    if s.phase == Onset {
      OnsetStep(s, Marks(cfg, xs), PlacesAfter(cfg, xs), x);
    }
  }

  /**
   An end that is not forced: the utterance did mature before, and since then there is a
   frame below offset after which nothing rose above onset for at least the hangover, at
   least two frames long.
   */
  lemma EndsAreBacked(cfg: Config, xs: seq<Input>, x: Input)
    requires x.Frame? && Step(Run(Initial(cfg), xs), x).1 == SpeechEnded
    ensures var ms, w := Marks(cfg, xs + [x]), PlacesAfter(cfg, xs);
      && InUtterance(cfg.minSpeech, ms, w)
      && w.matured < w.silent < |xs| && Silence(ms, w.silent)
      && HeardTime(ms, w.silent) >= ConfigAfter(cfg, xs).hangover
  {
    StateIsBacked(cfg, xs);
    LastMark(cfg, xs, x);
    var m := MarkOf(ConfigAfter(cfg, xs), x);
    var w := PlacesAfter(cfg, xs);
    Prefixes(Marks(cfg, xs), m, w.silent);
    UtteranceGoesOn(cfg.minSpeech, Marks(cfg, xs), w, m);
  }

  // ----- nothing is missed -----

  predicate Reports(s: State, xs: seq<Input>, o: Outcome) {
    exists k | 0 <= k < |xs| :: Step(Run(s, xs[..k]), xs[k]).1 == o
  }

  lemma ReportedEarlier(s: State, xs: seq<Input>, o: Outcome)
    requires xs != [] && Reports(s, xs[..|xs| - 1], o)
    ensures Reports(s, xs, o)
  {
    var front := xs[..|xs| - 1];
    var k :| 0 <= k < |front| && Step(Run(s, front[..k]), front[k]).1 == o;
    assert front[..k] == xs[..k];
  }

  /** A quiet endpointer that hears a candidate is waiting for it to mature, or has reported it. */
  lemma {:induction false} CandidateIsFollowed(s: State, xs: seq<Input>)
    requires s.phase == Quiet && forall x | x in xs :: x.Frame?
    requires Candidate(Marks(s.cfg, xs), 0)
    ensures !Reports(s, xs, SpeechStarted) ==>
      && Run(s, xs).phase == Onset && Run(s, xs).cfg == s.cfg && ConfigAfter(s.cfg, xs) == s.cfg
      && Run(s, xs).speechDur == AboveTime(Marks(s.cfg, xs), 0)
      && Immature(s.cfg.minSpeech, Marks(s.cfg, xs), 0)
  {
    var front, x, ms := xs[..|xs| - 1], xs[|xs| - 1], Marks(s.cfg, xs);
    assert x in xs;
    assert ms == Marks(s.cfg, front) + [ms[|xs| - 1]];
    Prefixes(Marks(s.cfg, front), ms[|xs| - 1], 0);
    if front == [] {
      assert Run(s, front) == s && ConfigAfter(s.cfg, front) == s.cfg;
    } else {
      assert forall k | 0 <= k < |front| :: Marks(s.cfg, front)[k] == ms[k];
      CandidateIsFollowed(s, front);
      if Reports(s, front, SpeechStarted) {
        ReportedEarlier(s, xs, SpeechStarted);
      } else {
        assert xs[..|xs| - 1] == front;
        FirstIsCounted(Marks(s.cfg, front), 0);
        assert Step(Run(s, front), x).1 != SpeechStarted || Reports(s, xs, SpeechStarted);
      }
    }
  }

  /** Speech that lasts long enough is reported by a quiet endpointer. */
  lemma SpeechIsNoticed(s: State, xs: seq<Input>)
    requires s.phase == Quiet && forall x | x in xs :: x.Frame?
    requires Candidate(Marks(s.cfg, xs), 0) && !Immature(s.cfg.minSpeech, Marks(s.cfg, xs), 0)
    ensures Reports(s, xs, SpeechStarted)
  {
    CandidateIsFollowed(s, xs);
  }

  /** Silence is followed from Speaking on, until its hangover is over. */
  lemma {:induction false} SilenceIsFollowed(s: State, xs: seq<Input>)
    requires s.phase == Speaking && forall x | x in xs :: x.Frame?
    requires Silence(Marks(s.cfg, xs), 0)
    ensures !Reports(s, xs, SpeechEnded) ==>
      && Run(s, xs).phase == Endpoint && Run(s, xs).cfg == s.cfg && ConfigAfter(s.cfg, xs) == s.cfg
      && Run(s, xs).quietDur == HeardTime(Marks(s.cfg, xs), 0)
      && (HeardTime(Marks(s.cfg, xs), 0) < s.cfg.hangover || |xs| == 1)
  {
    var front, x, ms := xs[..|xs| - 1], xs[|xs| - 1], Marks(s.cfg, xs);
    assert x in xs;
    assert ms == Marks(s.cfg, front) + [ms[|xs| - 1]];
    Prefixes(Marks(s.cfg, front), ms[|xs| - 1], 0);
    if front == [] {
      assert Run(s, front) == s && ConfigAfter(s.cfg, front) == s.cfg;
    } else {
      assert forall k | 0 <= k < |front| :: Marks(s.cfg, front)[k] == ms[k];
      SilenceIsFollowed(s, front);
      if Reports(s, front, SpeechEnded) {
        ReportedEarlier(s, xs, SpeechEnded);
      } else {
        assert xs[..|xs| - 1] == front;
        assert Step(Run(s, front), x).1 != SpeechEnded || Reports(s, xs, SpeechEnded);
      }
    }
  }

  /** Silence of at least two frames that lasts the hangover ends the utterance. */
  lemma SilenceIsNoticed(s: State, xs: seq<Input>)
    requires s.phase == Speaking && |xs| > 1 && forall x | x in xs :: x.Frame?
    requires Silence(Marks(s.cfg, xs), 0) && HeardTime(Marks(s.cfg, xs), 0) >= s.cfg.hangover
    ensures Reports(s, xs, SpeechEnded)
  {
    SilenceIsFollowed(s, xs);
  }
}
