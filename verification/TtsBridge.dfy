/**
 The bridge from LLM sentences to the playback queue (src/dialogue/tts_bridge.cpp).

 Two threads share it. The subscriber thread handles the bus events; the I/O thread pops
 one job at a time and synthesizes it. Every stretch under the bridge's mutex is one step,
 and so is every `is_cancelled` check, every enqueue, every token cancel and the clearing
 of the playback queue, so the threads interleave between any two of them. What Piper
 delivers, and what the playback engine consumes, is arbitrary.
 */
module TtsBridges {
  import opened Wrappers

  datatype Outcome = Open | Synthesized | Cancelled | Errored

  /** A queued sentence; `id` counts the sentences handled, in order. */
  datatype Job = Job(turn: nat, seqNo: nat, token: nat, id: nat)

  /** The history of one handled sentence. */
  datatype Record = Record(turn: nat, seqNo: nat, token: nat, outcome: Outcome)

  datatype Chunk = Chunk(turn: nat, seqNo: nat, id: nat, endOfSentence: bool)

  /** How far the I/O thread is with its job. */
  datatype Phase =
    | JustPopped
    | Submitting            // inside submit(), between callbacks
    | AudioChecked          // on_audio passed its check, not yet enqueued
    | Submitted             // submit() has returned
    | EosChecked            // the check before the end-of-sentence chunk has passed
    | Closing               // about to look at the token for the last time
    | Judged(verdict: Outcome)
    | Counted               // in_flight_ still set

  datatype IoThread = Waiting | Busy(job: Job, phase: Phase, failed: bool) | Exited

  datatype Subscriber = Ready | Cancelling(turn: nat, left: seq<nat>) | Clearing | Stopped

  datatype State = State(
    tokens: map<nat, nat>, nextToken: nat, cancelled: set<nat>,
    pending: seq<Job>, inFlight: Option<nat>, stopping: bool,
    io: IoThread, sub: Subscriber,
    synthesizedCount: nat, cancelledCount: nat, erroredCount: nat,
    queue: seq<Chunk>,
    log: seq<Chunk>,          // every chunk ever enqueued
    records: seq<Record>,     // every sentence ever handled
    submissions: seq<Job>,    // jobs handed to the synthesizer
    interrupted: set<nat>)    // turns ever interrupted

  datatype Label =
    | LlmStarted(turn: nat)
    | LlmSentence(turn: nat, seqNo: nat)
    | LlmFinished(turn: nat)
    | UserInterrupted(turn: nat)
    | CancelNext                 // one cancel() of on_user_interrupted, outside the mutex
    | ClearQueue
    | StopSubscription
    | StopLocks
    | IoPops
    | IoExits
    | IoChecks
    | AudioChecks                // on_audio with samples to deliver
    | AudioEnqueues
    | SynthesisFails
    | SubmitReturns
    | EosChecks
    | EosEnqueues
    | EosGivesUp
    | Judges
    | Counts
    | IoReleases
    | PlaybackTakes

  const INITIAL := State(map[], 0, {}, [], None, false, Waiting, Ready, 0, 0, 0, [], [], [], [], {})

  /** A playback capacity of 0 means unbounded. */
  predicate Room(capacity: nat, s: State) {
    capacity == 0 || |s.queue| < capacity
  }

  predicate InPhase(s: State, p: Phase) {
    s.io.Busy? && s.io.phase == p
  }

  function Keep(pending: seq<Job>, turn: nat): seq<Job> {
    if pending == [] then []
    else
      var last := pending[|pending| - 1];
      Keep(pending[..|pending| - 1], turn) + (if last.turn == turn then [] else [last])
  }

  predicate Known(pending: seq<Job>, records: seq<Record>) {
    forall j | j in pending :: j.id < |records|
  }

  /** The pending sentences of `turn` end as cancelled. */
  function MarkDropped(records: seq<Record>, pending: seq<Job>, turn: nat): (r: seq<Record>)
    requires Known(pending, records)
    ensures |r| == |records|
  {
    if pending == [] then records
    else
      var last := pending[|pending| - 1];
      var r := MarkDropped(records, pending[..|pending| - 1], turn);
      if last.turn == turn then r[last.id := r[last.id].(outcome := Cancelled)] else r
  }

  predicate Enabled(capacity: nat, s: State, l: Label) {
    match l
    case LlmStarted(_) | LlmSentence(_, _) | LlmFinished(_) => s.sub.Ready?
    case UserInterrupted(_) => s.sub.Ready? && Known(s.pending, s.records)
    case CancelNext => s.sub.Cancelling?
    case ClearQueue => s.sub.Clearing?
    case StopSubscription => s.sub.Ready?
    case StopLocks => s.sub.Stopped? && !s.stopping
    case IoPops => s.io.Waiting? && s.pending != []
    case IoExits => s.io.Waiting? && s.pending == [] && s.stopping
    case IoChecks => InPhase(s, JustPopped) && s.io.job.id < |s.records|
    case AudioChecks | SynthesisFails | SubmitReturns => InPhase(s, Submitting)
    case AudioEnqueues => InPhase(s, AudioChecked)
    case EosChecks => InPhase(s, Submitted)
    case EosEnqueues => InPhase(s, EosChecked) && Room(capacity, s)
    case EosGivesUp => InPhase(s, EosChecked) && !Room(capacity, s) && s.io.job.token in s.cancelled
    case Judges => InPhase(s, Closing) && s.io.job.id < |s.records|
    case Counts => s.io.Busy? && s.io.phase.Judged?
    case IoReleases => InPhase(s, Counted)
    case PlaybackTakes => s.queue != []
  }

  function Enqueue(s: State, endOfSentence: bool): State
    requires s.io.Busy?
  {
    var j := s.io.job;
    var c := Chunk(j.turn, j.seqNo, j.id, endOfSentence);
    s.(queue := s.queue + [c], log := s.log + [c])
  }

  function Go(s: State, p: Phase): State
    requires s.io.Busy?
  {
    s.(io := s.io.(phase := p))
  }

  function Judge(s: State, verdict: Outcome): State
    requires s.io.Busy? && s.io.job.id < |s.records|
  {
    var id := s.io.job.id;
    Go(s.(records := s.records[id := s.records[id].(outcome := verdict)]), Judged(verdict))
  }

  /** The token of a turn, minted if there is none (token_for). */
  function WithToken(s: State, turn: nat): (r: State)
    ensures turn in r.tokens
  {
    if turn in s.tokens then s
    else s.(tokens := s.tokens[turn := s.nextToken], nextToken := s.nextToken + 1)
  }

  function OnSentence(s: State, turn: nat, seqNo: nat): State {
    var s1 := WithToken(s, turn);
    var token := s1.tokens[turn];
    if token in s1.cancelled then
      s1.(cancelledCount := s.cancelledCount + 1, records := s.records + [Record(turn, seqNo, token, Cancelled)])
    else
      s1.(pending := s.pending + [Job(turn, seqNo, token, |s.records|)],
          records := s.records + [Record(turn, seqNo, token, Open)])
  }

  /** The part of on_user_interrupted that holds the mutex. */
  function OnInterrupted(s: State, turn: nat): State
    requires Known(s.pending, s.records)
  {
    var known := turn in s.tokens;
    var s1 := if known then s else WithToken(s, turn).(cancelled := s.cancelled + {s.nextToken});
    var left := (if known then [s.tokens[turn]] else []) + (if s.inFlight.Some? then [s.inFlight.value] else []);
    var kept := Keep(s.pending, turn);
    s1.(pending := kept, records := MarkDropped(s.records, s.pending, turn),
        cancelledCount := s.cancelledCount + KeepShrinks(s.pending, turn),
        sub := if left == [] then Clearing else Cancelling(turn, left),
        interrupted := s.interrupted + {turn})
  }

  /** How many sentences an interrupt drops. */
  function KeepShrinks(pending: seq<Job>, turn: nat): (n: nat)
    ensures n == |pending| - |Keep(pending, turn)|
  {
    if pending == [] then 0
    else KeepShrinks(pending[..|pending| - 1], turn) + (if pending[|pending| - 1].turn == turn then 1 else 0)
  }

  function Apply(capacity: nat, s: State, l: Label): State
    requires Enabled(capacity, s, l)
  {
    match l
    case LlmStarted(t) => s.(tokens := s.tokens[t := s.nextToken], nextToken := s.nextToken + 1)
    case LlmSentence(t, n) => OnSentence(s, t, n)
    case LlmFinished(t) => s.(tokens := s.tokens - {t})
    case UserInterrupted(t) => OnInterrupted(s, t)
    case CancelNext =>
      if s.sub.left == [] then s.(sub := Clearing)
      else s.(cancelled := s.cancelled + {s.sub.left[0]},
              sub := if |s.sub.left| == 1 then Clearing else s.sub.(left := s.sub.left[1..]))
    case ClearQueue => s.(queue := [], sub := Ready)
    case StopSubscription => s.(sub := Stopped)
    case StopLocks =>
      s.(stopping := true, cancelled := s.cancelled + (if s.inFlight.Some? then {s.inFlight.value} else {}))
    case IoPops =>
      s.(io := Busy(s.pending[0], JustPopped, false), pending := s.pending[1..], inFlight := Some(s.pending[0].token))
    case IoExits => s.(io := Exited)
    case IoChecks =>
      if s.io.job.token in s.cancelled then Judge(s, Cancelled)
      else Go(s, Submitting).(submissions := s.submissions + [s.io.job])
    case AudioChecks => if s.io.failed || s.io.job.token in s.cancelled then s else Go(s, AudioChecked)
    case AudioEnqueues => Go(if Room(capacity, s) then Enqueue(s, false) else s, Submitting)
    case SynthesisFails => s.(io := s.io.(failed := true))
    case SubmitReturns => Go(s, Submitted)
    case EosChecks => Go(s, if s.io.job.token in s.cancelled then Closing else EosChecked)
    case EosEnqueues => Go(Enqueue(s, true), Closing)
    case EosGivesUp => Go(s, Closing)
    case Judges =>
      Judge(s, if s.io.job.token in s.cancelled then Cancelled else if s.io.failed then Errored else Synthesized)
    case Counts =>
      var s1 := Go(s, Counted);
      (match s.io.phase.verdict
       case Synthesized => s1.(synthesizedCount := s.synthesizedCount + 1)
       case Errored => s1.(erroredCount := s.erroredCount + 1)
       case _ => s1.(cancelledCount := s.cancelledCount + 1))
    case IoReleases => s.(io := Waiting, inFlight := None)
    case PlaybackTakes => s.(queue := s.queue[1..])
  }

  function Run(capacity: nat, s: State, schedule: seq<Label>): Option<State> {
    if schedule == [] then Some(s)
    else
      var before := Run(capacity, s, schedule[..|schedule| - 1]);
      var l := schedule[|schedule| - 1];
      if before.Some? && Enabled(capacity, before.value, l) then Some(Apply(capacity, before.value, l)) else None
  }
}
