/**
 What the dialogue state machine promises over every sequence of events.
 */
module FsmTheorems {
  import opened DialogueFsm
  import opened Modulo

  // ----- every turn ends once -----

  /** The ledger of turns, with nobody resting in a transient phase. */
  ghost predicate Balanced(s: State) {
    && s.phase != Idle && s.phase != Completed && s.phase != Interrupted
    && s.minted == s.completed + s.interrupted + s.discarded + (if InTurn(s.phase) then 1 else 0)
    && |s.cancelGenerations| == s.interrupted + s.discarded
    && s.active < s.nextTurn
  }

  lemma HandleKeepsBalance(s: State, e: Event, now: int)
    requires Balanced(s)
    ensures Balanced(Handle(s, e, now))
    ensures s.active <= Handle(s, e, now).active && s.nextTurn <= Handle(s, e, now).nextTurn
  {
  }

  /** Over every run: turns minted = completed + interrupted + discarded + the one in progress. */
  lemma {:induction false} EveryTurnEndsOnce(s: State, events: seq<(Event, int)>)
    requires Balanced(s)
    ensures Balanced(HandleAll(s, events))
  {
    if events != [] {
      EveryTurnEndsOnce(s, events[..|events| - 1]);
      var (e, now) := events[|events| - 1];
      HandleKeepsBalance(HandleAll(s, events[..|events| - 1]), e, now);
    }
  }

  // ----- the end of a turn -----

  function Sentences(w: seq<Event>): nat {
    if w == [] then 0 else Sentences(w[..|w| - 1]) + (if w[|w| - 1].LlmSentence? then 1 else 0)
  }

  function Finishes(w: seq<Event>): nat {
    if w == [] then 0 else Finishes(w[..|w| - 1]) + (if w[|w| - 1].LlmFinished? then 1 else 0)
  }

  function Plays(w: seq<Event>, turn: nat): nat {
    if w == [] then 0 else Plays(w[..|w| - 1], turn) + (if w[|w| - 1] == PlaybackFinished(turn) then 1 else 0)
  }

  /** An event of a turn in progress: a sentence, the LLM's end, or any playback report, stale ones included. */
  predicate OfTurn(e: Event) {
    e.LlmSentence? || e.LlmFinished? || e.PlaybackFinished?
  }

  /** At every moment playback is behind the sentences, and no sentence follows the LLM's end. */
  ghost predicate Orderly(w: seq<Event>, turn: nat) {
    && (forall e | e in w :: OfTurn(e))
    && (forall k | 0 <= k <= |w| :: Plays(w[..k], turn) <= Sentences(w[..k]) && Finishes(w[..k]) <= 1)
    && (forall k | 0 <= k < |w| && w[k].LlmSentence? :: Finishes(w[..k]) == 0)
  }

  /** All n sentences have been played and the LLM has ended. */
  predicate Done(w: seq<Event>, turn: nat) {
    Finishes(w) == 1 && Plays(w, turn) == Sentences(w)
  }

  /** The test the program makes, in 32-bit counters: passed now or earlier. */
  predicate PassedTest(w: seq<Event>, turn: nat)
    decreases |w|
  {
    w != [] && (PassedTest(w[..|w| - 1], turn)
                || (Finishes(w) == 1 && (Sentences(w) - Plays(w, turn)) % U32 == 0))
  }

  /** A turn that has just started thinking. */
  predicate Fresh(s: State) {
    s.phase == Thinking && s.received == 0 && s.played == 0 && !s.llmFinishedSeen
  }

  function After(s: State, w: seq<Event>, now: int): State {
    if w == [] then s else Handle(After(s, w[..|w| - 1], now), w[|w| - 1], now)
  }

  /**
   The events of a turn, counted; `passed` says whether the program's test was ever passed,
   `outstanding` how many sentences were unplayed when the LLM ended (0 if it has not).
   */
  datatype Tally = Tally(sentences: nat, plays: nat, finishes: nat, passed: bool, outstanding: int)

  predicate Sane(t: Tally) {
    && t.plays <= t.sentences && t.finishes <= 1
    && (t.finishes == 1 && (t.sentences - t.plays) % U32 == 0 ==> t.passed)
    && (t.finishes == 0 ==> t.outstanding == 0 && !t.passed)
    && (t.finishes == 1 ==> t.sentences - t.plays <= t.outstanding)
    && (t.passed && t.outstanding < U32 ==> t.sentences == t.plays)
  }

  function Count(t: Tally, turn: nat, e: Event): Tally {
    var n, p, f :=
      t.sentences + (if e.LlmSentence? then 1 else 0),
      t.plays + (if e == PlaybackFinished(turn) then 1 else 0),
      t.finishes + (if e.LlmFinished? then 1 else 0);
    Tally(n, p, f, t.passed || (f == 1 && (n - p) % U32 == 0), if e.LlmFinished? then n - p else t.outstanding)
  }

  function TallyOf(w: seq<Event>, turn: nat): Tally {
    Tally(Sentences(w), Plays(w, turn), Finishes(w), PassedTest(w, turn), Outstanding(w, turn))
  }

  lemma CountIsSane(t: Tally, turn: nat, e: Event)
    requires Sane(t) && (e.LlmSentence? ==> t.finishes == 0)
    requires Count(t, turn, e).plays <= Count(t, turn, e).sentences && Count(t, turn, e).finishes <= 1
    ensures Sane(Count(t, turn, e))
  {
  }

  /** Where the machine stands after events with the tally `t`. */
  ghost predicate Tracks(s: State, t: Tally, s': State) {
    && s'.active == s.active
    && s'.completed == s.completed + (if t.passed then 1 else 0)
    && s'.interrupted == s.interrupted && s'.discarded == s.discarded
    && if t.passed then s'.phase == Listening && s'.outcome == WasCompleted
       else
         && s'.phase == (if t.sentences == 0 then Thinking else Speaking)
         && s'.received == t.sentences % U32 && s'.played == t.plays % U32
         && (s'.llmFinishedSeen <==> t.finishes == 1)
  }

  lemma OrderlyPrefix(w: seq<Event>, turn: nat)
    requires w != [] && Orderly(w, turn)
    ensures Orderly(w[..|w| - 1], turn)
    ensures Plays(w, turn) <= Sentences(w) && Finishes(w) <= 1
  {
    var v := w[..|w| - 1];
    assert forall k | 0 <= k <= |v| :: v[..k] == w[..k];
    assert forall k | 0 <= k < |v| :: v[k] == w[k];
    assert w[..|w|] == w;
  }

  /** One more event: the machine's own test is the 32-bit test on the counts. */
  lemma TrackOne(s: State, t: Tally, e: Event, s': State, now: int)
    requires OfTurn(e) && Sane(t) && Sane(Count(t, s.active, e)) && Tracks(s, t, s')
    requires e.LlmSentence? ==> t.finishes == 0
    ensures Tracks(s, Count(t, s.active, e), Handle(s', e, now))
  {
    hide Sane, Tracks;
    match e
    case LlmSentence => TrackSentence(s, t, s', now);
    case LlmFinished => TrackFinish(s, t, s', now);
    case PlaybackFinished(turn) =>
      if turn == s.active {
        TrackPlay(s, t, s', now);
      } else {
        TrackStale(s, t, s', turn, now);
      }
  }

  lemma TrackSentence(s: State, t: Tally, s': State, now: int)
    requires Sane(t) && Tracks(s, t, s') && t.finishes == 0
    ensures Tracks(s, Count(t, s.active, LlmSentence), Handle(s', LlmSentence, now))
  {
    ModSuccessor(t.sentences, U32);
  }

  lemma TrackStale(s: State, t: Tally, s': State, turn: nat, now: int)
    requires Sane(t) && Tracks(s, t, s') && turn != s.active
    ensures Tracks(s, Count(t, s.active, PlaybackFinished(turn)), Handle(s', PlaybackFinished(turn), now))
  {
  }

  lemma TrackFinish(s: State, t: Tally, s': State, now: int)
    requires Sane(t) && Sane(Count(t, s.active, LlmFinished)) && Tracks(s, t, s')
    ensures Tracks(s, Count(t, s.active, LlmFinished), Handle(s', LlmFinished, now))
  {
    EqualMod(t.sentences, t.plays, U32);
  }

  lemma TrackPlay(s: State, t: Tally, s': State, now: int)
    requires var e := PlaybackFinished(s.active); Sane(t) && Sane(Count(t, s.active, e)) && Tracks(s, t, s')
    ensures var e := PlaybackFinished(s.active); Tracks(s, Count(t, s.active, e), Handle(s', e, now))
  {
    EqualMod(t.sentences, t.plays + 1, U32);
    ModSuccessor(t.plays, U32);
  }

  lemma {:induction false} MachineTracks(s: State, w: seq<Event>, now: int)
    requires Fresh(s) && Orderly(w, s.active)
    ensures Tracks(s, TallyOf(w, s.active), After(s, w, now)) && Sane(TallyOf(w, s.active))
  {
    if w != [] {
      var v, e := w[..|w| - 1], w[|w| - 1];
      OrderlyPrefix(w, s.active);
      MachineTracks(s, v, now);
      assert e in w && TallyOf(w, s.active) == Count(TallyOf(v, s.active), s.active, e);
      CountIsSane(TallyOf(v, s.active), s.active, e);
      TrackOne(s, TallyOf(v, s.active), e, After(s, v, now), now);
    }
  }

  /** How many sentences are unplayed at the moment the LLM ends (0 if it has not). */
  function Outstanding(w: seq<Event>, turn: nat): int {
    if w == [] then 0
    else if w[|w| - 1].LlmFinished? then Sentences(w) - Plays(w, turn)
    else Outstanding(w[..|w| - 1], turn)
  }

  /** The events up to each moment, seen as an orderly turn themselves. */
  lemma {:induction false} OrderlyUpTo(w: seq<Event>, turn: nat, k: nat)
    requires Orderly(w, turn) && k <= |w|
    ensures Orderly(w[..k], turn)
    ensures Finishes(w[..k]) == 1 ==> Outstanding(w[..k], turn) == Outstanding(w, turn)
    ensures Finishes(w) >= Finishes(w[..k])
    decreases |w| - k
  {
    if k < |w| {
      OrderlyUpTo(w, turn, k + 1);
      OrderlyPrefix(w[..k + 1], turn);
      assert w[..k + 1][..k] == w[..k];
    } else {
      assert w[..k] == w;
    }
  }

  /** The turn ends when everything is done, and only then. */
  ghost predicate CompletesOnTime(s: State, w: seq<Event>, now: int) {
    forall k | 0 <= k <= |w| :: OnTimeAt(s, w[..k], now)
  }

  ghost predicate OnTimeAt(s: State, v: seq<Event>, now: int) {
    var s' := After(s, v, now);
    if Done(v, s.active) then s'.phase == Listening && s'.completed == s.completed + 1 && s'.outcome == WasCompleted
    else InTurn(s'.phase) && s'.completed == s.completed
  }

  /**
   A fresh turn, with any interleaving of its sentences, its playback reports, stale reports
   and the LLM's end in which playback never outruns the sentences. It completes exactly
   when everything is done, at the last event that matters and once, if and only if fewer
   than 2^32 sentences are unplayed when the LLM ends: the counters are 32-bit.
   */
  lemma TurnCompletesOnTime(s: State, w: seq<Event>, now: int)
    requires Fresh(s) && Orderly(w, s.active)
    requires Done(w, s.active)
    ensures CompletesOnTime(s, w, now) <==> Outstanding(w, s.active) < U32
  {
    if Outstanding(w, s.active) < U32 {
      forall k | 0 <= k <= |w| ensures OnTimeAt(s, w[..k], now) {
        OrderlyUpTo(w, s.active, k);
        MachineTracks(s, w[..k], now);
      }
    } else {
      var k := EarlyEnd(w, s.active);
      OrderlyUpTo(w, s.active, k);
      MachineTracks(s, w[..k], now);
      assert !OnTimeAt(s, w[..k], now);
    }
  }

  /** With 2^32 sentences outstanding the 32-bit test passes too early. */
  lemma {:induction false} EarlyEnd(w: seq<Event>, turn: nat) returns (k: nat)
    requires Orderly(w, turn) && Finishes(w) == 1 && Outstanding(w, turn) >= U32
    requires Sentences(w) - Plays(w, turn) <= U32
    ensures k <= |w| && PassedTest(w[..k], turn) && !Done(w[..k], turn)
  {
    if Sentences(w) - Plays(w, turn) == U32 {
      k := |w|;
      assert w[..k] == w;
    } else {
      OrderlyPrefix(w, turn);
      k := EarlyEnd(w[..|w| - 1], turn);
      assert w[..|w| - 1][..k] == w[..k];
    }
  }

  /** A turn whose n sentences are all played after the LLM has ended. */
  function LateTurn(turn: nat, n: nat): (w: seq<Event>)
    ensures |w| == 2 * n + 1
    ensures forall i | 0 <= i < |w| ::
      w[i] == if i < n then LlmSentence else if i == n then LlmFinished else PlaybackFinished(turn)
  {
    seq(2 * n + 1, i requires 0 <= i < 2 * n + 1 =>
      if i < n then LlmSentence else if i == n then LlmFinished else PlaybackFinished(turn))
  }

  lemma {:induction false} LateCounts(turn: nat, n: nat, k: nat)
    requires k <= 2 * n + 1
    ensures var v := LateTurn(turn, n)[..k];
      && Sentences(v) == (if k < n then k else n) && Finishes(v) == (if k > n then 1 else 0)
      && Plays(v, turn) == (if k > n then k - n - 1 else 0) && Outstanding(v, turn) == (if k > n then n else 0)
  {
    if k > 0 {
      LateCounts(turn, n, k - 1);
      var w := LateTurn(turn, n);
      assert w[..k][..k - 1] == w[..k - 1] && w[..k][k - 1] == w[k - 1];
    }
  }

  /** Every such turn is orderly and gets done, with all n sentences outstanding at the LLM's end. */
  lemma LateTurnIsOrderly(turn: nat, n: nat)
    ensures var w := LateTurn(turn, n); Orderly(w, turn) && Done(w, turn) && Outstanding(w, turn) == n
  {
    var w := LateTurn(turn, n);
    forall k | 0 <= k <= |w|
      ensures Plays(w[..k], turn) <= Sentences(w[..k]) && Finishes(w[..k]) <= 1
      ensures k < |w| && w[k].LlmSentence? ==> Finishes(w[..k]) == 0
    {
      LateCounts(turn, n, k);
    }
    LateCounts(turn, n, |w|);
    assert w[..|w|] == w;
  }

  /** So there are turns that complete too early: 2^32 sentences will do. */
  lemma SomeTurnsCompleteEarly(s: State, now: int)
    requires Fresh(s)
    ensures var w := LateTurn(s.active, U32);
      Orderly(w, s.active) && Done(w, s.active) && !CompletesOnTime(s, w, now)
  {
    hide Orderly, Done, CompletesOnTime;
    LateTurnIsOrderly(s.active, U32);
    TurnCompletesOnTime(s, LateTurn(s.active, U32), now);
  }

  /** How a turn comes to think afresh. */
  lemma SpeechLeadsToFreshTurn(s: State, n1: int, n2: int, n3: int)
    requires s.phase == Listening
    ensures var s' := Handle(Handle(Handle(s, SpeechStarted, n1), SpeechEnded, n2), FinalTranscript, n3);
      Fresh(s') && s'.active == s.nextTurn
  {
  }
}
