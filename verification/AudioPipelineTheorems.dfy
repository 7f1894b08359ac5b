/** What every run of the audio pipeline keeps, for all frames, mutes, gates and thresholds. */
module AudioPipelineTheorems {
  import opened Samples
  import opened AudioPipelines
  import E = Endpointing

  lemma Associates<T>(a: seq<T>, b: seq<T>, c: seq<T>)
    ensures (a + b) + c == a + (b + c)
  {
  }

  // ----- the speech flag and the endpointer -----

  predicate InUtterance(s: E.State) {
    s.phase == E.Speaking || s.phase == E.Endpoint
  }

  /** What the stages after the canceller make the endpointer see. */
  function SeenDownstream(cfg: Config, s: State, f: Frame, samples: seq<Sample>): seq<E.Input>
    requires cfg.rate > 0
  {
    var (s1, open) := GateStep(cfg, s, f);
    if open then [E.Frame(if f.p.Some? then f.p.value else s1.lastP, FrameMs(cfg, samples), f.at)]
    else if s.gateWasOpen then [E.Force(f.at)]
    else []
  }

  /** What one input makes the endpointer see. */
  function Seen(cfg: Config, apm: Canceller, s: State, x: Input): seq<E.Input>
    requires BlockSize(cfg) > 0
  {
    match x
    case Retune(onset, offset, hangover) => [E.Retune(onset, offset, hangover)]
    case Captured(f) =>
      if f.muted then (if s.prevMuted then [] else [E.Force(f.at)])
      else if f.resampled == [] then []
      else
        var (s1, samples, _) := CancelStep(cfg, apm, s.(prevMuted := false), f);
        if samples == [] then [] else SeenDownstream(cfg, s1, f, samples)
  }

  function SeenByEndpointer(cfg: Config, apm: Canceller, xs: seq<Input>): seq<E.Input>
    requires BlockSize(cfg) > 0
  {
    if xs == [] then []
    else
      var front := xs[..|xs| - 1];
      SeenByEndpointer(cfg, apm, front) + Seen(cfg, apm, Run(cfg, apm, front), xs[|xs| - 1])
  }

  lemma {:induction false} EndpointerRunConcat(s: E.State, a: seq<E.Input>, b: seq<E.Input>)
    requires |b| <= 1
    ensures E.Run(s, a + b) == if b == [] then E.Run(s, a) else E.Step(E.Run(s, a), b[0]).0
  {
    if b == [] {
      assert a + b == a;
    } else {
      assert (a + b)[..|a + b| - 1] == a;
    }
  }

  /** The flag agrees with the endpointer. */
  predicate Agrees(s: State) {
    s.inSpeech <==> InUtterance(s.endpointer)
  }

  /** s1 is where the endpointer of s goes when it sees at most one input. */
  predicate Follows(s: State, s1: State, seen: seq<E.Input>) {
    Agrees(s1) && |seen| <= 1 && s1.endpointer == if seen == [] then s.endpointer else E.Step(s.endpointer, seen[0]).0
  }

  lemma GateFlag(cfg: Config, s: State, x: Frame)
    requires Agrees(s)
    ensures var (s1, open) := GateStep(cfg, s, x);
      && Agrees(s1) && (!cfg.wakeWord ==> open) && s1.lastP == s.lastP
      && (open ==> s1.endpointer == s.endpointer && s1.inSpeech == s.inSpeech)
      && (!open ==> s1.endpointer == if s.gateWasOpen then E.ForceEndpoint(s.endpointer, x.at).0 else s.endpointer)
  {
  }

  lemma JudgeFlag(cfg: Config, s: State, x: Frame, samples: seq<Sample>)
    requires cfg.rate > 0 && Agrees(s)
    ensures var p := if x.p.Some? then x.p.value else s.lastP;
      Follows(s, JudgeStep(cfg, s, x, samples).0, [E.Frame(p, FrameMs(cfg, samples), x.at)])
  {
  }

  lemma DownstreamFlag(cfg: Config, s: State, x: Frame, samples: seq<Sample>)
    requires cfg.rate > 0 && Agrees(s)
    ensures Follows(s, DownstreamStep(cfg, s, x, samples).0, SeenDownstream(cfg, s, x, samples))
  {
    GateFlag(cfg, s, x);
    JudgeFlag(cfg, GateStep(cfg, s, x).0, x, samples);
  }

  lemma CancelFlag(cfg: Config, apm: Canceller, s: State, x: Frame)
    requires BlockSize(cfg) > 0
    ensures var s1 := CancelStep(cfg, apm, s, x).0; s1.endpointer == s.endpointer && s1.inSpeech == s.inSpeech
  {
  }

  lemma MutedFlag(s: State, x: Frame)
    requires Agrees(s)
    ensures Follows(s, MutedStep(s, x).0, if s.prevMuted then [] else [E.Force(x.at)])
  {
  }

  lemma StepKeepsFlag(cfg: Config, apm: Canceller, s: State, x: Input)
    requires BlockSize(cfg) > 0 && Agrees(s)
    ensures Follows(s, Step(cfg, apm, s, x).0, Seen(cfg, apm, s, x))
  {
    if x.Captured? {
      if x.frame.muted {
        MutedFlag(s, x.frame);
      } else if x.frame.resampled != [] {
        var s0 := s.(prevMuted := false);
        CancelFlag(cfg, apm, s0, x.frame);
        var (s1, samples, calls) := CancelStep(cfg, apm, s0, x.frame);
        DownstreamFlag(cfg, s1, x.frame, samples);
      }
    }
  }

  /** The speech flag is set exactly when the endpointer is in an utterance. */
  lemma {:induction false} FlagTracksEndpointer(cfg: Config, apm: Canceller, xs: seq<Input>)
    requires BlockSize(cfg) > 0
    ensures Agrees(Run(cfg, apm, xs))
    ensures Run(cfg, apm, xs).endpointer == E.Run(E.Initial(cfg.endpointer), SeenByEndpointer(cfg, apm, xs))
  {
    if xs != [] {
      var front, x := xs[..|xs| - 1], xs[|xs| - 1];
      FlagTracksEndpointer(cfg, apm, front);
      var s := Run(cfg, apm, front);
      StepKeepsFlag(cfg, apm, s, x);
      EndpointerRunConcat(E.Initial(cfg.endpointer), SeenByEndpointer(cfg, apm, front), Seen(cfg, apm, s, x));
    }
  }

  // ----- starts and ends -----

  datatype Edge = Open | Close | Expire

  function EdgeOf(e: Effect): seq<Edge> {
    match e
    case Published(SpeechStarted(_)) => [Open]
    case Published(SpeechEnded(_)) => [Close]
    case _ => []
  }

  /** The starts and ends among what was published. */
  function Edges(es: seq<Effect>): seq<Edge> {
    if es == [] then [] else Edges(es[..|es| - 1]) + EdgeOf(es[|es| - 1])
  }

  lemma {:induction false} EdgesConcat(a: seq<Effect>, b: seq<Effect>)
    ensures Edges(a + b) == Edges(a) + Edges(b)
    decreases |b|
  {
    if b == [] {
      assert a + b == a;
    } else {
      assert (a + b)[..|a + b| - 1] == a + b[..|b| - 1];
      EdgesConcat(a, b[..|b| - 1]);
      Associates(Edges(a), Edges(b[..|b| - 1]), EdgeOf(b[|b| - 1]));
    }
  }

  lemma {:induction false} NoEdges(es: seq<Effect>)
    requires forall e | e in es :: !e.Published?
    ensures Edges(es) == []
  {
    if es != [] {
      assert es[|es| - 1] in es;
      NoEdges(es[..|es| - 1]);
    }
  }

  lemma {:induction false} CallsAreNotPublished(bs: seq<seq<Sample>>)
    ensures forall e | e in AsCancelled(bs) :: e.Cancelled?
  {
    if bs != [] {
      CallsAreNotPublished(bs[..|bs| - 1]);
    }
  }

  lemma OneEdge(e: Effect)
    ensures Edges([e]) == EdgeOf(e)
  {
    assert [e][..0] == [];
  }

  lemma StartedEdges(cfg: Config, x: Frame, samples: seq<Sample>)
    ensures Edges(OnStarted(cfg, x, samples)) == [Open]
  {
    var es := OnStarted(cfg, x, samples);
    NoEdges(es[..|es| - 1]);
  }

  lemma EndedEdges(cfg: Config, x: Frame)
    ensures Edges(OnEnded(cfg, x)) == [Close]
  {
    var both := [BufferEnded(x.at), Published(SpeechEnded(x.at))];
    EdgesConcat([BufferEnded(x.at)], [Published(SpeechEnded(x.at))]);
    OneEdge(BufferEnded(x.at));
    OneEdge(Published(SpeechEnded(x.at)));
    assert both == [BufferEnded(x.at)] + [Published(SpeechEnded(x.at))];
    var after := OnEnded(cfg, x)[2..];
    assert OnEnded(cfg, x) == both + after;
    if after != [] {
      OneEdge(after[0]);
    }
    EdgesConcat(both, after);
  }

  /** The flag rises with a published start and falls with a published end, or when a gate runs out. */
  predicate Moves(cfg: Config, s: State, s1: State, published: seq<Edge>) {
    && (s.inSpeech == s1.inSpeech ==> published == [])
    && (!s.inSpeech && s1.inSpeech ==> published == [Open])
    && (s.inSpeech && !s1.inSpeech ==> published == [Close] || (published == [] && cfg.wakeWord))
  }

  lemma JudgeEdges(cfg: Config, s: State, x: Frame, samples: seq<Sample>)
    requires cfg.rate > 0 && Agrees(s)
    ensures var (s1, es) := JudgeStep(cfg, s, x, samples);
      Moves(cfg, s, s1, Edges(es)) && (s.inSpeech && !s1.inSpeech ==> Edges(es) == [Close])
  {
    hide OnStarted, OnEnded;
    StartedEdges(cfg, x, samples);
    EndedEdges(cfg, x);
    OneEdge(FalseStart);
  }

  lemma DownstreamEdges(cfg: Config, s: State, x: Frame, samples: seq<Sample>)
    requires cfg.rate > 0 && Agrees(s)
    ensures var (s1, es) := DownstreamStep(cfg, s, x, samples);
      Moves(cfg, s, s1, Edges(es)) && (!GateStep(cfg, s, x).1 ==> Edges(es) == [])
  {
    GateFlag(cfg, s, x);
    var (s1, open) := GateStep(cfg, s, x);
    OneEdge(Appended(samples));
    if open {
      var first := [Appended(samples)] + if s1.inSpeech && cfg.liveSink then [Streamed(samples)] else [];
      JudgeEdges(cfg, s1, x, samples);
      NoEdges(first);
      EdgesConcat(first, JudgeStep(cfg, s1, x, samples).1);
    }
  }

  lemma CancelEdges(cfg: Config, apm: Canceller, s: State, x: Frame, more: seq<Effect>)
    requires BlockSize(cfg) > 0
    ensures var calls := CancelStep(cfg, apm, s, x).2;
      Edges(calls) == [] && Edges(calls + more) == Edges(more)
  {
    var calls := CancelStep(cfg, apm, s, x).2;
    if x.aec {
      CallsAreNotPublished(Reblock(BlockSize(cfg), s.carry + x.resampled).0);
    }
    NoEdges(calls);
    EdgesConcat(calls, more);
  }

  lemma StepMoves(cfg: Config, apm: Canceller, s: State, x: Input)
    requires BlockSize(cfg) > 0 && Agrees(s)
    ensures var (s1, es) := Step(cfg, apm, s, x); Moves(cfg, s, s1, Edges(es))
  {
    hide DownstreamStep, CancelStep;
    if x.Captured? {
      var f := x.frame;
      if f.muted {
        OneEdge(Published(SpeechEnded(f.at)));
      } else if f.resampled != [] {
        var s0 := s.(prevMuted := false);
        CancelFlag(cfg, apm, s0, f);
        var (s1, samples, calls) := CancelStep(cfg, apm, s0, f);
        CancelEdges(cfg, apm, s0, f, DownstreamStep(cfg, s1, f, samples).1);
        DownstreamEdges(cfg, s1, f, samples);
      }
    }
  }

  /** The edges of one input; a fall of the flag with nothing published is an expiry. */
  function StepEdges(cfg: Config, apm: Canceller, s: State, x: Input): seq<Edge>
    requires BlockSize(cfg) > 0
  {
    var (s1, es) := Step(cfg, apm, s, x);
    if Edges(es) == [] && s.inSpeech && !s1.inSpeech then [Expire] else Edges(es)
  }

  lemma StepAlternates(cfg: Config, apm: Canceller, s: State, x: Input)
    requires BlockSize(cfg) > 0 && Agrees(s)
    ensures Alternation(cfg, s.inSpeech, Step(cfg, apm, s, x).0.inSpeech, StepEdges(cfg, apm, s, x))
  {
    StepMoves(cfg, apm, s, x);
  }

  predicate Alternation(cfg: Config, before: bool, after: bool, es: seq<Edge>) {
    && (before == after ==> es == [])
    && (!before && after ==> es == [Open])
    && (before && !after ==> es == [Close] || (es == [Expire] && cfg.wakeWord))
  }

  function History(cfg: Config, apm: Canceller, xs: seq<Input>): seq<Edge>
    requires BlockSize(cfg) > 0
  {
    if xs == [] then []
    else
      var front := xs[..|xs| - 1];
      History(cfg, apm, front) + StepEdges(cfg, apm, Run(cfg, apm, front), xs[|xs| - 1])
  }

  /** The starts and ends published over a run. */
  function PublishedEdges(h: seq<Edge>): seq<Edge> {
    if h == [] then []
    else PublishedEdges(h[..|h| - 1]) + if h[|h| - 1] == Expire then [] else [h[|h| - 1]]
  }

  predicate Alternates(h: seq<Edge>) {
    forall i | 0 <= i < |h| :: h[i] == Open <==> i % 2 == 0
  }

  /** A history that alternates, with the flag that it leaves. */
  predicate Sound(cfg: Config, h: seq<Edge>, inSpeech: bool) {
    Alternates(h) && (inSpeech <==> |h| % 2 == 1) && (!cfg.wakeWord ==> Expire !in h)
  }

  lemma HistoryGrows(cfg: Config, h: seq<Edge>, before: bool, after: bool, es: seq<Edge>)
    requires Sound(cfg, h, before) && Alternation(cfg, before, after, es)
    ensures Sound(cfg, h + es, after)
  {
  }

  /** Every run: starts alternate with ends and expiries, and only a wake-word gate expires. */
  lemma {:induction false} EveryRunAlternates(cfg: Config, apm: Canceller, xs: seq<Input>)
    requires BlockSize(cfg) > 0
    ensures Sound(cfg, History(cfg, apm, xs), Run(cfg, apm, xs).inSpeech)
  {
    if xs != [] {
      var front, x := xs[..|xs| - 1], xs[|xs| - 1];
      EveryRunAlternates(cfg, apm, front);
      FlagTracksEndpointer(cfg, apm, front);
      var s := Run(cfg, apm, front);
      StepAlternates(cfg, apm, s, x);
      HistoryGrows(cfg, History(cfg, apm, front), s.inSpeech, Step(cfg, apm, s, x).0.inSpeech, StepEdges(cfg, apm, s, x));
    }
  }

  lemma {:induction false} PublishedConcat(a: seq<Edge>, b: seq<Edge>)
    ensures PublishedEdges(a + b) == PublishedEdges(a) + PublishedEdges(b)
    decreases |b|
  {
    if b == [] {
      assert a + b == a;
    } else {
      assert (a + b)[..|a + b| - 1] == a + b[..|b| - 1];
      PublishedConcat(a, b[..|b| - 1]);
    }
  }

  lemma {:induction false} AllPublished(h: seq<Edge>)
    requires Expire !in h
    ensures PublishedEdges(h) == h
  {
    if h != [] {
      AllPublished(h[..|h| - 1]);
    }
  }

  lemma ExpireOpen()
    ensures PublishedEdges([Expire, Open]) == [Open]
  {
    PublishedConcat([Expire], [Open]);
    assert [Expire][..0] == [] && [Open][..0] == [];
  }

  /** A first expiry that is followed by a start puts two starts next to each other. */
  lemma ExpiryThenStart(h: seq<Edge>, i: nat)
    requires Alternates(h) && i + 1 < |h| && h[i] == Expire && Expire !in h[..i]
    ensures !Alternates(PublishedEdges(h))
  {
    var a, c := h[..i], h[i + 2..];
    assert h[i + 1] == Open;
    assert h == (a + [Expire, Open]) + c;
    PublishedConcat(a + [Expire, Open], c);
    PublishedConcat(a, [Expire, Open]);
    AllPublished(a);
    ExpireOpen();
    assert ((a + [Open]) + PublishedEdges(c))[i] == Open;
  }

  lemma FirstExpiry(h: seq<Edge>, n: nat) returns (i: nat)
    requires n < |h| && h[n] == Expire
    ensures i <= n && h[i] == Expire && Expire !in h[..i]
  {
    i := 0;
    while h[i] != Expire
      invariant i <= n && Expire !in h[..i]
      decreases n - i
    {
      i := i + 1;
    }
  }

  lemma OnlyTheLastExpires(front: seq<Edge>, e: Edge)
    requires Alternates(front + [e]) && Expire !in front
    ensures Alternates(PublishedEdges(front + [e]))
  {
    AllPublished(front);
    assert (front + [e])[..|front|] == front;
    assert forall i | 0 <= i < |front| :: front[i] == (front + [e])[i];
    assert PublishedEdges(front + [e]) == front + if e == Expire then [] else [e];
  }

  lemma PublishedAlternates(h: seq<Edge>)
    requires Alternates(h)
    ensures Alternates(PublishedEdges(h)) <==> forall i | 0 <= i < |h| - 1 :: h[i] != Expire
  {
    if n: nat :| n < |h| - 1 && h[n] == Expire {
      var i := FirstExpiry(h, n);
      ExpiryThenStart(h, i);
    } else if h != [] {
      assert h == h[..|h| - 1] + [h[|h| - 1]];
      OnlyTheLastExpires(h[..|h| - 1], h[|h| - 1]);
    }
  }

  /** The starts and ends in everything a run publishes. */
  function Announced(cfg: Config, apm: Canceller, xs: seq<Input>): seq<Edge>
    requires BlockSize(cfg) > 0
  {
    if xs == [] then []
    else
      var front := xs[..|xs| - 1];
      Announced(cfg, apm, front) + Edges(Step(cfg, apm, Run(cfg, apm, front), xs[|xs| - 1]).1)
  }

  lemma {:induction false} NoExpiryIsPublished(es: seq<Effect>)
    ensures Expire !in Edges(es)
  {
    if es != [] {
      NoExpiryIsPublished(es[..|es| - 1]);
    }
  }

  lemma StepIsAnnounced(cfg: Config, apm: Canceller, s: State, x: Input)
    requires BlockSize(cfg) > 0
    ensures PublishedEdges(StepEdges(cfg, apm, s, x)) == Edges(Step(cfg, apm, s, x).1)
  {
    NoExpiryIsPublished(Step(cfg, apm, s, x).1);
    AllPublished(Edges(Step(cfg, apm, s, x).1));
    assert [Expire][..0] == [];
  }

  lemma {:induction false} AnnouncedIsPublished(cfg: Config, apm: Canceller, xs: seq<Input>)
    requires BlockSize(cfg) > 0
    ensures Announced(cfg, apm, xs) == PublishedEdges(History(cfg, apm, xs))
  {
    if xs != [] {
      var front, x := xs[..|xs| - 1], xs[|xs| - 1];
      AnnouncedIsPublished(cfg, apm, front);
      var s := Run(cfg, apm, front);
      StepIsAnnounced(cfg, apm, s, x);
      PublishedConcat(History(cfg, apm, front), StepEdges(cfg, apm, s, x));
    }
  }

  /**
   What is published as a start and an end alternates strictly exactly when no gate ran out
   during speech that was followed by another start; without a wake-word gate, always.
   */
  lemma PublishedStartsAndEndsAlternate(cfg: Config, apm: Canceller, xs: seq<Input>)
    requires BlockSize(cfg) > 0
    ensures var h := History(cfg, apm, xs);
      && (Alternates(Announced(cfg, apm, xs)) <==> forall i | 0 <= i < |h| - 1 :: h[i] != Expire)
      && (!cfg.wakeWord ==> Alternates(Announced(cfg, apm, xs)))
      && (!cfg.wakeWord ==> (Run(cfg, apm, xs).inSpeech <==> |Announced(cfg, apm, xs)| % 2 == 1))
  {
    var h := History(cfg, apm, xs);
    EveryRunAlternates(cfg, apm, xs);
    AnnouncedIsPublished(cfg, apm, xs);
    PublishedAlternates(h);
    if !cfg.wakeWord {
      AllPublished(h);
    }
  }

  // ----- evidence -----

  lemma RiseIsHeard(e: E.State, x: E.Input)
    requires !InUtterance(e) && InUtterance(E.Step(e, x).0)
    ensures E.Step(e, x).1 == E.SpeechStarted
  {
  }

  /** Only a fall that is heard in a frame is published by a frame that is not muted. */
  lemma FallIsHeard(cfg: Config, apm: Canceller, s: State, x: Frame)
    requires BlockSize(cfg) > 0 && !x.muted && Agrees(s)
    requires StepEdges(cfg, apm, s, Captured(x)) == [Close]
    ensures var more := Seen(cfg, apm, s, Captured(x));
      |more| == 1 && more[0].Frame? && E.Step(s.endpointer, more[0]).1 == E.SpeechEnded
  {
    StepAlternates(cfg, apm, s, Captured(x));
    if x.resampled != [] {
      var s0 := s.(prevMuted := false);
      CancelFlag(cfg, apm, s0, x);
      var (s1, samples, calls) := CancelStep(cfg, apm, s0, x);
      CancelEdges(cfg, apm, s0, x, DownstreamStep(cfg, s1, x, samples).1);
      DownstreamEdges(cfg, s1, x, samples);
      DownstreamFlag(cfg, s1, x, samples);
    }
  }

  /**
   A frame that publishes a start shows the endpointer a frame with which a candidate
   matures: enough time above onset, and no frame below offset since it began.
   */
  lemma PublishedStartsAreBacked(cfg: Config, apm: Canceller, xs: seq<Input>, x: Input)
    requires BlockSize(cfg) > 0 && StepEdges(cfg, apm, Run(cfg, apm, xs), x) == [Open]
    ensures var seen, more := SeenByEndpointer(cfg, apm, xs), Seen(cfg, apm, Run(cfg, apm, xs), x);
      && |more| == 1
      && E.Matures(cfg.endpointer.minSpeech, E.Marks(cfg.endpointer, seen + [more[0]]),
                   E.PlacesAfter(cfg.endpointer, seen).begun)
  {
    var s := Run(cfg, apm, xs);
    FlagTracksEndpointer(cfg, apm, xs);
    StepAlternates(cfg, apm, s, x);
    StepKeepsFlag(cfg, apm, s, x);
    RiseIsHeard(s.endpointer, Seen(cfg, apm, s, x)[0]);
    E.StartsAreBacked(cfg.endpointer, SeenByEndpointer(cfg, apm, xs), Seen(cfg, apm, s, x)[0]);
  }

  /**
   An end published while not muted follows a matured utterance, a frame below offset, and
   at least the hangover without a frame above onset.
   */
  lemma PublishedEndsAreBacked(cfg: Config, apm: Canceller, xs: seq<Input>, x: Frame)
    requires BlockSize(cfg) > 0 && !x.muted && StepEdges(cfg, apm, Run(cfg, apm, xs), Captured(x)) == [Close]
    ensures var seen, more := SeenByEndpointer(cfg, apm, xs), Seen(cfg, apm, Run(cfg, apm, xs), Captured(x));
      && |more| == 1
      && var marks, w := E.Marks(cfg.endpointer, seen + [more[0]]), E.PlacesAfter(cfg.endpointer, seen);
      && E.InUtterance(cfg.endpointer.minSpeech, marks, w)
      && w.matured < w.silent && E.Silence(marks, w.silent)
      && E.HeardTime(marks, w.silent) >= E.ConfigAfter(cfg.endpointer, seen).hangover
  {
    var s := Run(cfg, apm, xs);
    FlagTracksEndpointer(cfg, apm, xs);
    FallIsHeard(cfg, apm, s, x);
    E.EndsAreBacked(cfg.endpointer, SeenByEndpointer(cfg, apm, xs), Seen(cfg, apm, s, Captured(x))[0]);
  }

  // ----- re-blocking -----

  function BlockOf(e: Effect): seq<seq<Sample>> {
    if e.Cancelled? then [e.block] else []
  }

  function Blocks(es: seq<Effect>): seq<seq<Sample>> {
    if es == [] then [] else Blocks(es[..|es| - 1]) + BlockOf(es[|es| - 1])
  }

  /** The blocks the canceller was called with over a run, and the samples that went to that stage. */
  function AllBlocks(cfg: Config, apm: Canceller, xs: seq<Input>): seq<seq<Sample>>
    requires BlockSize(cfg) > 0
  {
    if xs == [] then []
    else
      var front := xs[..|xs| - 1];
      AllBlocks(cfg, apm, front) + Blocks(Step(cfg, apm, Run(cfg, apm, front), xs[|xs| - 1]).1)
  }

  function Offered(x: Input): seq<Sample> {
    if x.Captured? && !x.frame.muted && x.frame.aec then x.frame.resampled else []
  }

  function AllOffered(xs: seq<Input>): seq<Sample> {
    if xs == [] then [] else AllOffered(xs[..|xs| - 1]) + Offered(xs[|xs| - 1])
  }

  lemma {:induction false} BlocksConcat(a: seq<Effect>, b: seq<Effect>)
    requires forall e | e in b :: !e.Cancelled?
    ensures Blocks(a + b) == Blocks(a)
    decreases |b|
  {
    if b == [] {
      assert a + b == a;
    } else {
      assert b[|b| - 1] in b;
      assert (a + b)[..|a + b| - 1] == a + b[..|b| - 1];
      BlocksConcat(a, b[..|b| - 1]);
    }
  }

  lemma {:induction false} BlocksOfCalls(bs: seq<seq<Sample>>)
    ensures Blocks(AsCancelled(bs)) == bs
  {
    if bs != [] {
      var es := AsCancelled(bs);
      BlocksOfCalls(bs[..|bs| - 1]);
      assert es[..|es| - 1] == AsCancelled(bs[..|bs| - 1]);
    }
  }

  lemma DownstreamBlocks(cfg: Config, s: State, x: Frame, samples: seq<Sample>)
    requires cfg.rate > 0
    ensures var (s1, es) := DownstreamStep(cfg, s, x, samples);
      (forall e | e in es :: !e.Cancelled?) && s1.carry == s.carry && s1.calls == s.calls
  {
  }

  lemma MutedBlocks(s: State, x: Frame)
    ensures var (s1, es) := MutedStep(s, x); Blocks(es) == [] && s1.carry == s.carry && s1.calls == s.calls
  {
    BlocksConcat([], MutedStep(s, x).1);
    assert [] + MutedStep(s, x).1 == MutedStep(s, x).1;
  }

  lemma FrameBlocks(cfg: Config, apm: Canceller, s: State, f: Frame)
    requires BlockSize(cfg) > 0 && !f.muted && f.resampled != []
    ensures var s0 := s.(prevMuted := false);
      var (s1, es) := FrameStep(cfg, apm, s, f);
      Blocks(es) == Blocks(CancelStep(cfg, apm, s0, f).2)
      && s1.carry == CancelStep(cfg, apm, s0, f).0.carry && s1.calls == CancelStep(cfg, apm, s0, f).0.calls
  {
    var (s1, samples, calls) := CancelStep(cfg, apm, s.(prevMuted := false), f);
    DownstreamBlocks(cfg, s1, f, samples);
    BlocksConcat(calls, DownstreamStep(cfg, s1, f, samples).1);
  }

  lemma StepBlocks(cfg: Config, apm: Canceller, s: State, x: Input)
    requires BlockSize(cfg) > 0
    ensures var (s1, es) := Step(cfg, apm, s, x);
      if Offered(x) == [] then Blocks(es) == [] && s1.carry == s.carry && s1.calls == s.calls
      else
        && (Blocks(es), s1.carry) == Reblock(BlockSize(cfg), s.carry + Offered(x))
        && s1.calls == s.calls + |Blocks(es)|
  {
    if x.Captured? {
      var f := x.frame;
      if f.muted {
        MutedBlocks(s, f);
      } else if f.resampled != [] {
        FrameBlocks(cfg, apm, s, f);
        if f.aec {
          BlocksOfCalls(Reblock(BlockSize(cfg), s.carry + f.resampled).0);
        }
      }
    }
  }

  /** The blocks seen so far and the carry make up what was offered. */
  predicate Conserved(size: nat, bs: seq<seq<Sample>>, carry: seq<Sample>, calls: nat, offered: seq<Sample>) {
    Flatten(bs) + carry == offered && (forall b | b in bs :: |b| == size) && |carry| < size && calls == |bs|
  }

  lemma ConservedGrows(size: nat, bs: seq<seq<Sample>>, carry: seq<Sample>, offered: seq<Sample>, more: seq<Sample>)
    requires size > 0 && Conserved(size, bs, carry, |bs|, offered)
    ensures var (cs, rest) := Reblock(size, carry + more);
      Conserved(size, bs + cs, rest, |bs| + |cs|, offered + more)
  {
    var (cs, rest) := Reblock(size, carry + more);
    ReblockKeeps(size, carry + more);
    FlattenConcat(bs, cs);
    Associates(Flatten(bs), Flatten(cs), rest);
    Associates(Flatten(bs), carry, more);
  }

  /**
   Re-blocking loses, adds and reorders nothing: the blocks the canceller saw, then the
   carry, are the samples offered to it; every block is 10 ms, the carry is shorter.
   */
  lemma {:induction false} ReblockingConserves(cfg: Config, apm: Canceller, xs: seq<Input>)
    requires BlockSize(cfg) > 0
    ensures var s := Run(cfg, apm, xs);
      Conserved(BlockSize(cfg), AllBlocks(cfg, apm, xs), s.carry, s.calls, AllOffered(xs))
  {
    if xs != [] {
      var front, x := xs[..|xs| - 1], xs[|xs| - 1];
      ReblockingConserves(cfg, apm, front);
      var s := Run(cfg, apm, front);
      StepBlocks(cfg, apm, s, x);
      ConservedGrows(BlockSize(cfg), AllBlocks(cfg, apm, front), s.carry, AllOffered(front), Offered(x));
    }
  }

  // ----- what goes on from the canceller -----

  function AppendedBy(es: seq<Effect>): seq<Sample> {
    if es == [] then []
    else AppendedBy(es[..|es| - 1]) + if es[|es| - 1].Appended? then es[|es| - 1].samples else []
  }

  function AllAppended(cfg: Config, apm: Canceller, xs: seq<Input>): seq<Sample>
    requires BlockSize(cfg) > 0
  {
    if xs == [] then []
    else
      var front := xs[..|xs| - 1];
      AllAppended(cfg, apm, front) + AppendedBy(Step(cfg, apm, Run(cfg, apm, front), xs[|xs| - 1]).1)
  }

  lemma {:induction false} NothingAppended(a: seq<Effect>, b: seq<Effect>)
    requires forall e | e in b :: !e.Appended?
    ensures AppendedBy(a + b) == AppendedBy(a)
    decreases |b|
  {
    if b == [] {
      assert a + b == a;
    } else {
      assert b[|b| - 1] in b;
      assert (a + b)[..|a + b| - 1] == a + b[..|b| - 1];
      NothingAppended(a, b[..|b| - 1]);
    }
  }

  lemma {:induction false} CleanConcat(apm: Canceller, n: nat, a: seq<seq<Sample>>, b: seq<seq<Sample>>)
    ensures Clean(apm, n, a + b) == Clean(apm, n, a) + Clean(apm, n + |a|, b)
    decreases |b|
  {
    if b == [] {
      assert a + b == a;
    } else {
      assert (a + b)[..|a + b| - 1] == a + b[..|b| - 1];
      CleanConcat(apm, n, a, b[..|b| - 1]);
    }
  }

  lemma JudgeAppends(cfg: Config, s: State, x: Frame, samples: seq<Sample>)
    requires cfg.rate > 0
    ensures forall e | e in JudgeStep(cfg, s, x, samples).1 :: !e.Appended?
  {
  }

  lemma DownstreamAppends(cfg: Config, s: State, x: Frame, samples: seq<Sample>)
    requires cfg.rate > 0
    ensures var es := DownstreamStep(cfg, s, x, samples).1;
      es != [] && es[0] == Appended(samples) && forall e | e in es[1..] :: !e.Appended?
  {
    hide JudgeStep;
    var (s1, open) := GateStep(cfg, s, x);
    JudgeAppends(cfg, s1, x, samples);
    var es := DownstreamStep(cfg, s, x, samples).1;
    if open {
      var after := JudgeStep(cfg, s1, x, samples).1;
      var streamed := if s1.inSpeech && cfg.liveSink then [Streamed(samples)] else [];
      assert es[1..] == streamed + after;
    }
  }

  lemma FirstAppends(calls: seq<Effect>, samples: seq<Sample>, es: seq<Effect>)
    requires forall e | e in calls :: !e.Appended?
    requires es != [] && es[0] == Appended(samples) && forall e | e in es[1..] :: !e.Appended?
    ensures AppendedBy(calls + es) == samples
  {
    var first := calls + [es[0]];
    assert calls + es == first + es[1..];
    NothingAppended(first, es[1..]);
    assert first[..|first| - 1] == calls;
    NoneAppended(calls);
  }

  lemma NoneAppended(es: seq<Effect>)
    requires forall e | e in es :: !e.Appended?
    ensures AppendedBy(es) == []
  {
    NothingAppended([], es);
    assert [] + es == es;
  }

  lemma StepAppends(cfg: Config, apm: Canceller, s: State, x: Input)
    requires BlockSize(cfg) > 0 && (x.Captured? ==> x.frame.aec)
    ensures AppendedBy(Step(cfg, apm, s, x).1) == Clean(apm, s.calls, Blocks(Step(cfg, apm, s, x).1))
  {
    StepBlocks(cfg, apm, s, x);
    if x.Captured? {
      var f := x.frame;
      if f.muted {
        NoneAppended(MutedStep(s, f).1);
      } else if f.resampled != [] {
        var (s1, samples, calls) := CancelStep(cfg, apm, s.(prevMuted := false), f);
        CallsAreNotPublished(Reblock(BlockSize(cfg), s.carry + f.resampled).0);
        if samples == [] {
          NoneAppended(calls);
        } else {
          DownstreamAppends(cfg, s1, f, samples);
          FirstAppends(calls, samples, DownstreamStep(cfg, s1, f, samples).1);
        }
      }
    }
  }

  lemma AppendGrows(apm: Canceller, a: seq<Sample>, bs: seq<seq<Sample>>, b: seq<Sample>, more: seq<seq<Sample>>)
    requires a == Clean(apm, 0, bs) && b == Clean(apm, |bs|, more)
    ensures a + b == Clean(apm, 0, bs + more)
  {
    CleanConcat(apm, 0, bs, more);
  }

  /** With the canceller always active, what is appended is its output for the offered samples, in order. */
  lemma {:induction false} CancelledStreamGoesOn(cfg: Config, apm: Canceller, xs: seq<Input>)
    requires BlockSize(cfg) > 0 && forall x | x in xs && x.Captured? :: x.frame.aec
    ensures AllAppended(cfg, apm, xs) == Clean(apm, 0, AllBlocks(cfg, apm, xs))
  {
    if xs != [] {
      var front, x := xs[..|xs| - 1], xs[|xs| - 1];
      assert x in xs;
      CancelledStreamGoesOn(cfg, apm, front);
      ReblockingConserves(cfg, apm, front);
      var s := Run(cfg, apm, front);
      StepAppends(cfg, apm, s, x);
      var es := Step(cfg, apm, s, x).1;
      AppendGrows(apm, AllAppended(cfg, apm, front), AllBlocks(cfg, apm, front), AppendedBy(es), Blocks(es));
    }
  }
}
