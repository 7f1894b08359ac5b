/**
 The state machine's turns as the events tell them: which sentences and reports belong to the
 turn at work, when it ends and how, over every sequence of events from a listening machine.
 */
module FsmHistory {
  import opened DialogueFsm
  import opened FsmTheorems
  import opened Modulo

  type Timed = (Event, int)

  /** The state in front of the last event. */
  function Before(s: State, es: seq<Timed>): State
    requires es != []
  {
    HandleAll(s, es[..|es| - 1])
  }

  /** A turn begins with this event. */
  predicate Begins(b: State, e: Event) {
    e.SpeechStarted? && !InTurn(b.phase)
  }

  // Since the turn at work began: sentences, reports of its own playback, and the LLM's end.

  function Received(s: State, es: seq<Timed>): nat {
    if es == [] then 0
    else if Begins(Before(s, es), es[|es| - 1].0) then 0
    else Received(s, es[..|es| - 1]) + if es[|es| - 1].0.LlmSentence? then 1 else 0
  }

  function Played(s: State, es: seq<Timed>): nat {
    if es == [] then 0
    else
      var b, e := Before(s, es), es[|es| - 1].0;
      if Begins(b, e) then 0 else Played(s, es[..|es| - 1]) + if e == PlaybackFinished(b.active) then 1 else 0
  }

  predicate LlmEnded(s: State, es: seq<Timed>) {
    es != [] && !Begins(Before(s, es), es[|es| - 1].0) && (es[|es| - 1].0.LlmFinished? || LlmEnded(s, es[..|es| - 1]))
  }

  /** How many turns have begun. */
  function Begun(s: State, es: seq<Timed>): nat {
    if es == [] then 0
    else Begun(s, es[..|es| - 1]) + if Begins(Before(s, es), es[|es| - 1].0) then 1 else 0
  }

  /**
   Event e completes a turn of which `received` sentences came, `played` were played, and whose
   LLM may have `ended`: the LLM ends with nothing said or all of it played, or the last one is
   played behind the LLM's end. Equal is as far as 32 bits can tell.
   */
  predicate Finishes(b: State, e: Event, received: nat, played: nat, ended: bool) {
    match e
    case LlmFinished =>
      (b.phase == Thinking && received % U32 == 0) || (b.phase == Speaking && received % U32 == played % U32)
    case PlaybackFinished(t) => t == b.active && b.phase == Speaking && ended && received % U32 == (played + 1) % U32
    case _ => false
  }

  predicate Completes(s: State, es: seq<Timed>)
    requires es != []
  {
    var front := es[..|es| - 1];
    Finishes(Before(s, es), es[|es| - 1].0, Received(s, front), Played(s, front), LlmEnded(s, front))
  }

  function Completions(s: State, es: seq<Timed>): nat {
    if es == [] then 0 else Completions(s, es[..|es| - 1]) + if Completes(s, es) then 1 else 0
  }

  /** The turns that an interrupt ended, in order, and whether anything of them had been heard. */
  function Interrupted(s: State, es: seq<Timed>): seq<(nat, bool)> {
    if es == [] then []
    else
      var b, front := Before(s, es), es[..|es| - 1];
      if es[|es| - 1].0.UserInterrupted? && InTurn(b.phase)
      then Interrupted(s, front) + [(b.active, Played(s, front) % U32 != 0)] else Interrupted(s, front)
  }

  function Ids(ends: seq<(nat, bool)>): seq<nat> {
    seq(|ends|, i requires 0 <= i < |ends| => ends[i].0)
  }

  /** How many of them were heard, or were not. */
  function Number(ends: seq<(nat, bool)>, heard: bool): nat {
    if ends == [] then 0
    else Number(ends[..|ends| - 1], heard) + if ends[|ends| - 1].1 == heard then 1 else 0
  }

  /** When the turn at work began to speak. */
  function SpokeAt(s: State, es: seq<Timed>): int {
    if es == [] then s.enteredSpeakingAt
    else
      var (e, now) := es[|es| - 1];
      if e.LlmSentence? && Before(s, es).phase == Thinking then now else SpokeAt(s, es[..|es| - 1])
  }

  // ----- the machine keeps count -----

  /** In a turn, the machine's 32-bit counters are those of the events since it began. */
  ghost predicate Counts(s: State, es: seq<Timed>) {
    var s' := HandleAll(s, es);
    InTurn(s'.phase) ==>
      && s'.received == Received(s, es) % U32 && s'.played == Played(s, es) % U32
      && (s'.llmFinishedSeen <==> LlmEnded(s, es))
  }

  lemma CountersFollow(b: State, e: Event, now: int)
    requires Balanced(b)
    ensures var s' := Handle(b, e, now);
      InTurn(s'.phase) ==>
        if Begins(b, e) then s'.received == 0 && s'.played == 0 && !s'.llmFinishedSeen
        else
          && InTurn(b.phase)
          && s'.received == (if e.LlmSentence? then (b.received + 1) % U32 else b.received)
          && s'.played == (if e == PlaybackFinished(b.active) then (b.played + 1) % U32 else b.played)
          && s'.llmFinishedSeen == (e.LlmFinished? || b.llmFinishedSeen)
  {
  }

  lemma {:induction false} MachineCounts(s: State, es: seq<Timed>)
    requires Balanced(s) && s.phase == Listening
    ensures Counts(s, es)
  {
    if es != [] {
      var front := es[..|es| - 1];
      var (e, now) := es[|es| - 1];
      MachineCounts(s, front);
      EveryTurnEndsOnce(s, front);
      CountersFollow(HandleAll(s, front), e, now);
      ModSuccessor(Received(s, front), U32);
      ModSuccessor(Played(s, front), U32);
      hide Handle, Balanced;
    }
  }

  /** What the phase becomes with an event that completes the turn or does not. */
  function PhaseAfter(p: Phase, e: Event, completes: bool): Phase {
    if e.UserInterrupted? || completes then Listening
    else
      match (p, e)
      case (Listening, SpeechStarted) => UserSpeaking
      case (UserSpeaking, SpeechEnded) => Transcribing
      case (Transcribing, FinalTranscript) => Thinking
      case (Thinking, LlmSentence) => Speaking
      case _ => p
  }

  /** What is noted of the turn; `heard` says whether any of it was. */
  function OutcomeAfter(b: State, e: Event, completes: bool, heard: bool): Outcome {
    if completes then WasCompleted
    else if e.UserInterrupted? && InTurn(b.phase) then (if heard then WasInterrupted else WasDiscarded)
    else if Begins(b, e) then NotStarted
    else if e.FinalTranscript? && b.phase == Transcribing then Generating
    else if e.LlmSentence? && b.phase == Thinking then SpeakingNow
    else b.outcome
  }

  lemma StepFollows(b: State, e: Event, now: int, received: nat, played: nat, ended: bool)
    requires Balanced(b)
    requires InTurn(b.phase) ==>
      b.received == received % U32 && b.played == played % U32 && b.llmFinishedSeen == ended
    ensures var s', done := Handle(b, e, now), Finishes(b, e, received, played, ended);
      && s'.phase == PhaseAfter(b.phase, e, done)
      && s'.completed == b.completed + (if done then 1 else 0)
      && s'.outcome == OutcomeAfter(b, e, done, played % U32 != 0)
      && s'.enteredSpeakingAt == if e.LlmSentence? && b.phase == Thinking then now else b.enteredSpeakingAt
  {
    ModSuccessor(played, U32);
  }

  lemma LastHandled(s: State, es: seq<Timed>)
    requires es != []
    ensures HandleAll(s, es) == Handle(Before(s, es), es[|es| - 1].0, es[|es| - 1].1)
  {
  }

  /**
   Over every sequence of events: the machine is in the phase its own events lead to, turns
   are completed exactly when their LLM ends with nothing said or with all of it played, or
   when the last of it is played behind the LLM's end, as far as 32-bit counters can tell; a
   turn that speaks is stamped with the sentence it began to speak with; and the ids of turns
   are consecutive.
   */
  lemma {:induction false} MachineFollows(s: State, es: seq<Timed>)
    requires Balanced(s) && s.phase == Listening
    ensures es != [] ==> HandleAll(s, es).phase == PhaseAfter(Before(s, es).phase, es[|es| - 1].0, Completes(s, es))
    ensures es != [] ==>
      HandleAll(s, es).outcome
        == OutcomeAfter(Before(s, es), es[|es| - 1].0, Completes(s, es), Played(s, es[..|es| - 1]) % U32 != 0)
    ensures var s', n := HandleAll(s, es), Begun(s, es);
      && s'.completed == s.completed + Completions(s, es) && s'.enteredSpeakingAt == SpokeAt(s, es)
      && s'.minted == s.minted + n && s'.nextTurn == s.nextTurn + n
      && s'.active == if n == 0 then s.active else s.nextTurn + n - 1
  {
    if es != [] {
      var front := es[..|es| - 1];
      var (e, now) := es[|es| - 1];
      MachineFollows(s, front);
      MachineCounts(s, front);
      EveryTurnEndsOnce(s, front);
      StepFollows(HandleAll(s, front), e, now, Received(s, front), Played(s, front), LlmEnded(s, front));
      LastHandled(s, es);
      MintsOne(Before(s, es), e, now);
      hide Handle, Finishes, PhaseAfter, OutcomeAfter, Balanced, Received, Played, LlmEnded;
    }
  }

  lemma MintsOne(b: State, e: Event, now: int)
    requires Balanced(b)
    ensures var s', n := Handle(b, e, now), if Begins(b, e) then 1 else 0;
      && s'.minted == b.minted + n && s'.nextTurn == b.nextTurn + n
      && s'.active == if n == 0 then b.active else b.nextTurn
  {
  }

  lemma OneMoreEnd(ends: seq<(nat, bool)>, end: (nat, bool))
    ensures Ids(ends + [end]) == Ids(ends) + [end.0]
    ensures forall heard :: Number(ends + [end], heard) == Number(ends, heard) + if end.1 == heard then 1 else 0
    ensures Ids(ends + []) == Ids(ends) && ends + [] == ends
  {
    assert (ends + [end])[..|ends|] == ends;
  }

  /** The machine's ledger of interrupts, from s to s'. */
  ghost predicate Told(s: State, s': State, ends: seq<(nat, bool)>) {
    && s'.interrupted == s.interrupted + Number(ends, true)
    && s'.discarded == s.discarded + Number(ends, false)
    && s'.cancelGenerations == s.cancelGenerations + Ids(ends)
  }

  lemma InterruptStep(s: State, b: State, e: Event, now: int, ends: seq<(nat, bool)>, heard: bool)
    requires Balanced(b) && Told(s, b, ends) && (InTurn(b.phase) ==> heard == (b.played != 0))
    ensures var cut := e.UserInterrupted? && InTurn(b.phase);
      Told(s, Handle(b, e, now), if cut then ends + [(b.active, heard)] else ends)
  {
    OneMoreEnd(ends, (b.active, heard));
    hide Ids, Number;
  }

  /**
   Over every sequence of events: a turn that an interrupt ends counts as interrupted if and
   only if some of it was heard, that is if a report of its own playback was handled since it
   began, as far as 32 bits can tell; otherwise as discarded. For each of these turns, and for
   no other, one CancelGeneration with its id is published, in order.
   */
  lemma {:induction false} InterruptsAreTold(s: State, es: seq<Timed>)
    requires Balanced(s) && s.phase == Listening
    ensures Told(s, HandleAll(s, es), Interrupted(s, es))
  {
    if es != [] {
      var front := es[..|es| - 1];
      var (e, now) := es[|es| - 1];
      InterruptsAreTold(s, front);
      MachineCounts(s, front);
      EveryTurnEndsOnce(s, front);
      LastHandled(s, es);
      hide Told, Handle, Balanced, Received, Played, LlmEnded, HandleAll;
      InterruptStep(s, Before(s, es), e, now, Interrupted(s, front), Played(s, front) % U32 != 0);
    }
  }
}
