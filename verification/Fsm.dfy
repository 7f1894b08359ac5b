/**
 The dialogue state machine and the turn factory (src/dialogue/fsm.cpp, src/dialogue/turn.cpp).
 `Handle` says what one bus event does; the class is the program's handlers.
 */
module DialogueFsm {
  /** The per-turn sentence counters are 32-bit. */
  const U32 := 0x1_0000_0000

  datatype Phase = Idle | Listening | UserSpeaking | Transcribing | Thinking | Speaking | Completed | Interrupted

  datatype Outcome = NotStarted | Generating | SpeakingNow | WasInterrupted | WasCompleted | WasDiscarded

  datatype Event =
    | SpeechStarted | SpeechEnded | FinalTranscript
    | LlmSentence | LlmFinished
    | PlaybackFinished(turn: nat)
    | UserInterrupted
    | Ignored

  datatype State = State(
    phase: Phase, active: nat, outcome: Outcome,
    played: nat, received: nat, llmFinishedSeen: bool,
    completed: nat, interrupted: nat, discarded: nat,
    enteredSpeakingAt: int,
    nextTurn: nat,                    // the factory's counter
    minted: nat,                      // how many turns this machine has minted
    cancelGenerations: seq<nat>)      // CancelGeneration events published

  function Initial(nextTurn: nat): State {
    State(Idle, 0, NotStarted, 0, 0, false, 0, 0, 0, 0, nextTurn, 0, [])
  }

  predicate InTurn(p: Phase) {
    p == UserSpeaking || p == Transcribing || p == Thinking || p == Speaking
  }

  function To(s: State, next: Phase, now: int): State {
    s.(phase := next, enteredSpeakingAt := if s.phase != Speaking && next == Speaking then now else s.enteredSpeakingAt)
  }

  /** A turn ends as completed and the machine listens again. */
  function Complete(s: State): State {
    s.(outcome := WasCompleted, completed := s.completed + 1, phase := Listening)
  }

  function Handle(s: State, e: Event, now: int): State {
    match e
    case SpeechStarted =>
      if s.phase == Listening || s.phase == Completed || s.phase == Interrupted then
        s.(phase := UserSpeaking, active := s.nextTurn, nextTurn := s.nextTurn + 1, minted := s.minted + 1,
           outcome := NotStarted, played := 0, received := 0, llmFinishedSeen := false)
      else s
    case SpeechEnded => if s.phase == UserSpeaking then s.(phase := Transcribing) else s
    case FinalTranscript => if s.phase == Transcribing then s.(phase := Thinking, outcome := Generating) else s
    case LlmSentence =>
      var s1 := s.(received := (s.received + 1) % U32);
      if s.phase == Thinking then To(s1.(outcome := SpeakingNow), Speaking, now) else s1
    case LlmFinished =>
      var s1 := s.(llmFinishedSeen := true);
      if (s.phase == Thinking && s.received == 0) || (s.phase == Speaking && s.played == s.received)
      then Complete(s1) else s1
    case PlaybackFinished(t) =>
      if t != s.active then s
      else
        var s1 := s.(played := (s.played + 1) % U32);
        if s.phase == Speaking && s.llmFinishedSeen && s1.played == s.received then Complete(s1) else s1
    case UserInterrupted =>
      if s.phase == Listening || s.phase == Idle then s
      else
        var s1 := s.(cancelGenerations := s.cancelGenerations + [s.active], phase := Listening);
        if s.played >= 1 then s1.(outcome := WasInterrupted, interrupted := s.interrupted + 1)
        else s1.(outcome := WasDiscarded, discarded := s.discarded + 1)
    case Ignored => s
  }

  /** Events with the time at which each is handled. */
  function HandleAll(s: State, events: seq<(Event, int)>): State {
    if events == [] then s
    else Handle(HandleAll(s, events[..|events| - 1]), events[|events| - 1].0, events[|events| - 1].1)
  }

  /** The shared source of turn ids. */
  class TurnFactory {
    var next: nat
    ghost var minted: seq<nat>

    /** The ids minted so far are 1, 2, 3, ...: none is missing and none is minted twice. */
    ghost predicate Consecutive()
      reads this
    {
      next == |minted| + 1 && forall i | 0 <= i < |minted| :: minted[i] == i + 1
    }

    constructor ()
      ensures next == 1 && minted == [] && Consecutive()
    {
      next, minted := 1, [];
    }

    method Mint() returns (id: nat)
      modifies this
      ensures id == old(next) && next == id + 1 && minted == old(minted) + [id]
      ensures old(Consecutive()) ==> Consecutive() && id !in old(minted)
    {
      id := next;
      next := next + 1;
      minted := minted + [id];
    }

    /** A context for an id that someone else minted: it will not be minted because of that, nor again. */
    method Adopt(id: nat) returns (adopted: nat)
      ensures adopted == id && unchanged(this)
    {
      adopted := id;
    }
  }

  class Fsm {
    const turns: TurnFactory
    var phase: Phase
    var active: nat
    var outcome: Outcome
    var played: nat
    var received: nat
    var llmFinishedSeen: bool
    var turnsCompleted: nat
    var turnsInterrupted: nat
    var turnsDiscarded: nat
    var enteredSpeakingAt: int
    var cancelGenerations: seq<nat>
    var subscribed: bool
    ghost var minted: nat

    ghost function Now(): State
      reads this, turns
    {
      State(phase, active, outcome, played, received, llmFinishedSeen, turnsCompleted, turnsInterrupted, turnsDiscarded,
            enteredSpeakingAt, turns.next, minted, cancelGenerations)
    }

    constructor (turns: TurnFactory)
      ensures this.turns == turns && Now() == Initial(turns.next) && !subscribed
    {
      this.turns := turns;
      phase, active, outcome, played, received, llmFinishedSeen := Idle, 0, NotStarted, 0, 0, false;
      turnsCompleted, turnsInterrupted, turnsDiscarded := 0, 0, 0;
      enteredSpeakingAt, cancelGenerations, minted, subscribed := 0, [], 0, false;
    }

    /** Starting twice does nothing; starting listens, whatever the phase was. */
    method Start(now: int)
      modifies this
      ensures subscribed
      ensures Now() == if old(subscribed) then old(Now()) else old(Now()).(phase := Listening)
    {
      if subscribed {
        return;
      }
      subscribed := true;
      Transition(Listening, now);
    }

    method Stop()
      modifies this`subscribed
      ensures !subscribed
    {
      subscribed := false;
    }

    method Transition(next: Phase, now: int)
      modifies this`phase, this`enteredSpeakingAt
      ensures Now() == To(old(Now()), next, now)
    {
      var prev := phase;
      phase := next;
      if prev != Speaking && next == Speaking {
        enteredSpeakingAt := now;
      }
    }

    method HandleSpeechStarted(now: int)
      modifies this, turns
      ensures Now() == Handle(old(Now()), SpeechStarted, now)
    {
      var current := phase;
      if current == Listening || current == Completed || current == Interrupted {
        var id := turns.Mint();
        minted := minted + 1;
        active, outcome, played, received, llmFinishedSeen := id, NotStarted, 0, 0, false;
        Transition(UserSpeaking, now);
      }
    }

    method HandleSpeechEnded(now: int)
      modifies this
      ensures Now() == Handle(old(Now()), SpeechEnded, now)
    {
      if phase == UserSpeaking {
        Transition(Transcribing, now);
      }
    }

    method HandleFinalTranscript(now: int)
      modifies this
      ensures Now() == Handle(old(Now()), FinalTranscript, now)
    {
      var current := phase;
      if current == Transcribing {
        outcome := Generating;
      }
      if current == Transcribing {
        Transition(Thinking, now);
      }
    }

    method HandleLlmSentence(now: int)
      modifies this
      ensures Now() == Handle(old(Now()), LlmSentence, now)
    {
      received := (received + 1) % U32;
      var current := phase;
      if current == Thinking {
        outcome := SpeakingNow;
      }
      if current == Thinking {
        Transition(Speaking, now);
      }
    }

    method HandleLlmFinished(now: int)
      modifies this
      ensures Now() == Handle(old(Now()), LlmFinished, now)
    {
      var toCompleted := false;
      llmFinishedSeen := true;
      if phase == Thinking && received == 0 {
        outcome := WasCompleted;
        turnsCompleted := turnsCompleted + 1;
        toCompleted := true;
      } else if phase == Speaking && played == received {
        outcome := WasCompleted;
        turnsCompleted := turnsCompleted + 1;
        toCompleted := true;
      }
      if toCompleted {
        Transition(Completed, now);
        Transition(Listening, now);
      }
    }

    method HandlePlaybackFinished(turn: nat, now: int)
      modifies this
      ensures Now() == Handle(old(Now()), PlaybackFinished(turn), now)
    {
      var turnDone := false;
      if turn != active {
        return;
      }
      played := (played + 1) % U32;
      if phase == Speaking && llmFinishedSeen && played == received {
        outcome := WasCompleted;
        turnsCompleted := turnsCompleted + 1;
        turnDone := true;
      }
      if turnDone {
        Transition(Completed, now);
        Transition(Listening, now);
      }
    }

    method HandleUserInterrupted(now: int)
      modifies this
      ensures Now() == Handle(old(Now()), UserInterrupted, now)
    {
      var prevPhase, oldTurn, alreadyPlayed := phase, active, played >= 1;
      if prevPhase == Listening || prevPhase == Idle {
        return;
      }
      cancelGenerations := cancelGenerations + [oldTurn];
      if alreadyPlayed {
        outcome := WasInterrupted;
        turnsInterrupted := turnsInterrupted + 1;
      } else {
        outcome := WasDiscarded;
        turnsDiscarded := turnsDiscarded + 1;
      }
      Transition(Interrupted, now);
      Transition(Listening, now);
    }
  }
}
