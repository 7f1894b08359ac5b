/**
 The bridge's state as its schedule tells it: what has been recorded, submitted, enqueued,
 cancelled and counted, read from the labels and from the states in front of them.
 */
module TtsBridgeHistory {
  import opened Wrappers
  import opened TtsBridges
  import opened TtsBridgeTheorems

  /** The sentences the bus delivered, in order. */
  function Delivered(schedule: seq<Label>): seq<(nat, nat)> {
    if schedule == [] then []
    else
      Delivered(schedule[..|schedule| - 1]) +
      match schedule[|schedule| - 1]
      case LlmSentence(t, n) => [(t, n)]
      case _ => []
  }

  /** Synthesis of the job at work has failed. */
  predicate Failed(schedule: seq<Label>) {
    schedule != [] &&
    match schedule[|schedule| - 1]
    case SynthesisFails => true
    case IoPops => false
    case _ => Failed(schedule[..|schedule| - 1])
  }

  /** The state in front of the last step. */
  function Before(capacity: nat, schedule: seq<Label>): (s: State)
    requires schedule != [] && Run(capacity, INITIAL, schedule).Some?
  {
    Run(capacity, INITIAL, schedule[..|schedule| - 1]).value
  }

  /** The chunks that went into the playback queue: audio if there was room, and the ends of sentences. */
  function Enqueued(capacity: nat, schedule: seq<Label>): seq<Chunk>
    requires Run(capacity, INITIAL, schedule).Some?
  {
    if schedule == [] then []
    else
      var s, l := Before(capacity, schedule), schedule[|schedule| - 1];
      Enqueued(capacity, schedule[..|schedule| - 1]) +
      if l.AudioEnqueues? && (capacity == 0 || |s.queue| < capacity) then
        [Chunk(s.io.job.turn, s.io.job.seqNo, s.io.job.id, false)]
      else if l.EosEnqueues? then [Chunk(s.io.job.turn, s.io.job.seqNo, s.io.job.id, true)]
      else []
  }

  /** How many of them have left the queue: all at a clearing, one whenever playback takes it. */
  function Left(capacity: nat, schedule: seq<Label>): nat
    requires Run(capacity, INITIAL, schedule).Some?
  {
    if schedule == [] then 0
    else
      var front := schedule[..|schedule| - 1];
      match schedule[|schedule| - 1]
      case ClearQueue => |Enqueued(capacity, front)|
      case PlaybackTakes => Left(capacity, front) + 1
      case _ => Left(capacity, front)
  }

  /** The jobs handed to the synthesizer: those found live by the check in front of it. */
  function HandedOver(capacity: nat, schedule: seq<Label>): seq<Job>
    requires Run(capacity, INITIAL, schedule).Some?
  {
    if schedule == [] then []
    else
      var s := Before(capacity, schedule);
      HandedOver(capacity, schedule[..|schedule| - 1]) +
      if schedule[|schedule| - 1].IoChecks? && s.io.job.token !in s.cancelled then [s.io.job] else []
  }

  /** Tokens an interrupt or a stop has taken aim at: the turn's own, and the one of the job in flight. */
  function Doomed(capacity: nat, schedule: seq<Label>): set<nat>
    requires Run(capacity, INITIAL, schedule).Some?
  {
    if schedule == [] then {}
    else
      var s := Before(capacity, schedule);
      var flying := if s.inFlight.Some? then {s.inFlight.value} else {};
      Doomed(capacity, schedule[..|schedule| - 1]) +
      match schedule[|schedule| - 1]
      case UserInterrupted(t) => flying + {if t in s.tokens then s.tokens[t] else s.nextToken}
      case StopLocks => flying
      case _ => {}
  }

  function Interrupts(schedule: seq<Label>): nat {
    if schedule == [] then 0
    else Interrupts(schedule[..|schedule| - 1]) + if schedule[|schedule| - 1].UserInterrupted? then 1 else 0
  }

  function Clearings(schedule: seq<Label>): nat {
    if schedule == [] then 0
    else Clearings(schedule[..|schedule| - 1]) + if schedule[|schedule| - 1].ClearQueue? then 1 else 0
  }

  predicate OfIoThread(l: Label) {
    match l
    case IoPops | IoExits | IoChecks | AudioChecks | AudioEnqueues | SynthesisFails | SubmitReturns => true
    case EosChecks | EosEnqueues | EosGivesUp | Judges | Counts | IoReleases => true
    case _ => false
  }

  /** Where step `l` of the I/O thread, taken in state `s`, leaves it; `failed` is what became of synthesis. */
  predicate Leaves(s: State, l: Label, failed: bool, io: IoThread) {
    var live := s.io.Busy? && s.io.job.token !in s.cancelled;
    if l.IoExits? then io.Exited?
    else if l.IoReleases? then io.Waiting?
    else
      && io.Busy?
      && (if l.IoPops? then s.pending != [] && io.job == s.pending[0] else s.io.Busy? && io.job == s.io.job)
      && io.phase ==
        match l
        case IoPops => JustPopped
        case IoChecks => if live then Submitting else Judged(Cancelled)
        case AudioChecks => if live && !failed then AudioChecked else Submitting
        case SubmitReturns => Submitted
        case EosChecks => if live then EosChecked else Closing
        case EosEnqueues | EosGivesUp => Closing
        case Judges => Judged(if !live then Cancelled else if failed then Errored else Synthesized)
        case Counts => Counted
        case _ => Submitting
  }

  /** The I/O thread stands where its own last step left it; the subscriber's steps do not move it. */
  predicate IoStands(capacity: nat, schedule: seq<Label>, io: IoThread)
    requires Run(capacity, INITIAL, schedule).Some?
  {
    if schedule == [] then io.Waiting?
    else
      var front, l := schedule[..|schedule| - 1], schedule[|schedule| - 1];
      if OfIoThread(l) then Leaves(Before(capacity, schedule), l, Failed(front), io)
      else IoStands(capacity, front, io)
  }

  function Count(records: seq<Record>, o: Outcome): nat {
    if records == [] then 0
    else Count(records[..|records| - 1], o) + if records[|records| - 1].outcome == o then 1 else 0
  }

  // ----- one step -----

  lemma NoRunWithoutFront(capacity: nat, schedule: seq<Label>, s: State)
    requires schedule != [] && Run(capacity, INITIAL, schedule) == Some(s)
    ensures var front, l := schedule[..|schedule| - 1], schedule[|schedule| - 1];
      && Run(capacity, INITIAL, front).Some? && Before(capacity, schedule) == Run(capacity, INITIAL, front).value
      && Enabled(capacity, Before(capacity, schedule), l) && s == Apply(capacity, Before(capacity, schedule), l)
  {
  }

  /** What a step puts into the queue, and how the queue moves. */
  lemma QueueStep(capacity: nat, s: State, l: Label)
    requires Enabled(capacity, s, l)
    ensures var s' := Apply(capacity, s, l);
      var added := if l.AudioEnqueues? && (capacity == 0 || |s.queue| < capacity) then
                     [Chunk(s.io.job.turn, s.io.job.seqNo, s.io.job.id, false)]
                   else if l.EosEnqueues? then [Chunk(s.io.job.turn, s.io.job.seqNo, s.io.job.id, true)] else [];
      && s'.log == s.log + added
      && s'.queue == (if l.ClearQueue? then [] else if l.PlaybackTakes? then s.queue[1..] else s.queue + added)
  {
    hide OnSentence, OnInterrupted, Judge;
    match l
    case LlmSentence(t, n) => SentenceKeepsRest(s, t, n);
    case UserInterrupted(t) => InterruptKeepsRest(s, t);
    case Judges => JudgeKeepsRest(s, if s.io.job.token in s.cancelled then Cancelled else if s.io.failed then Errored else Synthesized);
    case IoChecks => JudgeKeepsRest(s, Cancelled);
    case _ =>
  }

  lemma SentenceKeepsRest(s: State, t: nat, n: nat)
    ensures var s' := OnSentence(s, t, n);
      && s'.log == s.log && s'.queue == s.queue && s'.io == s.io && s'.inFlight == s.inFlight && s'.sub == s.sub
      && s'.submissions == s.submissions && s'.cancelled == s.cancelled && s'.stopping == s.stopping
      && |s'.records| == |s.records| + 1 && s'.records[..|s.records|] == s.records
      && s'.records[|s.records|].turn == t && s'.records[|s.records|].seqNo == n
  {
  }

  lemma InterruptKeepsRest(s: State, t: nat)
    requires Known(s.pending, s.records)
    ensures var s' := OnInterrupted(s, t);
      && s'.log == s.log && s'.queue == s.queue && s'.io == s.io && s'.inFlight == s.inFlight
      && s'.submissions == s.submissions && s'.stopping == s.stopping
  {
    hide Keep, KeepShrinks, MarkDropped;
  }

  lemma JudgeKeepsRest(s: State, verdict: Outcome)
    requires s.io.Busy? && s.io.job.id < |s.records|
    ensures var s' := Judge(s, verdict);
      s' == s.(records := s'.records, io := s.io.(phase := Judged(verdict)))
      && |s'.records| == |s.records|
  {
  }

  // ----- the playback queue -----

  /**
   Over every schedule: what was ever enqueued is one chunk of audio for each enqueuing that
   found room and one closing chunk for each end of a sentence, each of the sentence that was
   then being synthesized, and in that order.
   */
  lemma {:induction false} LogIsEnqueued(capacity: nat, schedule: seq<Label>, s: State)
    requires Run(capacity, INITIAL, schedule) == Some(s)
    ensures s.log == Enqueued(capacity, schedule)
  {
    if schedule != [] {
      NoRunWithoutFront(capacity, schedule, s);
      var before := Before(capacity, schedule);
      LogIsEnqueued(capacity, schedule[..|schedule| - 1], before);
      QueueStep(capacity, before, schedule[|schedule| - 1]);
      hide Apply;
    }
  }

  lemma TailMoves(log: seq<Chunk>, left: nat, queue: seq<Chunk>, added: seq<Chunk>)
    requires left <= |log| && queue == log[left..]
    ensures queue + added == (log + added)[left..]
    ensures queue != [] ==> left < |log| && queue[1..] == log[left + 1..]
  {
  }

  /**
   Over every schedule: the queue is what was enqueued less what playback took, since it was
   last cleared; a bounded queue never holds more than its capacity.
   */
  lemma {:induction false} QueueIsTheRest(capacity: nat, schedule: seq<Label>, s: State)
    requires Run(capacity, INITIAL, schedule) == Some(s)
    ensures Left(capacity, schedule) <= |Enqueued(capacity, schedule)|
    ensures s.queue == Enqueued(capacity, schedule)[Left(capacity, schedule)..]
    ensures capacity == 0 || |s.queue| <= capacity
  {
    if schedule != [] {
      NoRunWithoutFront(capacity, schedule, s);
      var before, front, l := Before(capacity, schedule), schedule[..|schedule| - 1], schedule[|schedule| - 1];
      QueueIsTheRest(capacity, front, before);
      QueueStep(capacity, before, l);
      hide Apply;
      var added := Enqueued(capacity, schedule)[|Enqueued(capacity, front)|..];
      TailMoves(Enqueued(capacity, front), Left(capacity, front), before.queue, added);
    }
  }

  lemma SubscriberStep(capacity: nat, s: State, l: Label)
    requires Enabled(capacity, s, l)
    ensures var s' := Apply(capacity, s, l);
      match l
      case UserInterrupted(_) => s.sub.Ready? && !s'.sub.Ready? && !s'.sub.Stopped?
      case ClearQueue => s.sub.Clearing? && s'.sub.Ready?
      case CancelNext => s.sub.Cancelling? && (s'.sub.Cancelling? || s'.sub.Clearing?)
      case StopSubscription => s.sub.Ready? && s'.sub.Stopped?
      case _ => s'.sub == s.sub
  {
    hide OnSentence, Judge;
    match l
    case LlmSentence(t, n) => SentenceKeepsRest(s, t, n);
    case Judges => JudgeKeepsRest(s, if s.io.job.token in s.cancelled then Cancelled else if s.io.failed then Errored else Synthesized);
    case IoChecks => JudgeKeepsRest(s, Cancelled);
    case _ =>
  }

  /** Over every schedule: no event is handled behind an interrupt before the queue was cleared. */
  lemma {:induction false} EveryInterruptClears(capacity: nat, schedule: seq<Label>, s: State)
    requires Run(capacity, INITIAL, schedule) == Some(s)
    ensures Interrupts(schedule) == Clearings(schedule) + if s.sub.Cancelling? || s.sub.Clearing? then 1 else 0
    ensures schedule != [] && schedule[|schedule| - 1].ClearQueue? ==> s.queue == [] && s.sub.Ready?
  {
    if schedule != [] {
      NoRunWithoutFront(capacity, schedule, s);
      var before := Before(capacity, schedule);
      EveryInterruptClears(capacity, schedule[..|schedule| - 1], before);
      SubscriberStep(capacity, before, schedule[|schedule| - 1]);
      QueueStep(capacity, before, schedule[|schedule| - 1]);
      hide Apply;
    }
  }

  // ----- the sentences -----

  function Keys(records: seq<Record>): seq<(nat, nat)> {
    seq(|records|, i requires 0 <= i < |records| => (records[i].turn, records[i].seqNo))
  }

  lemma RecordStep(capacity: nat, s: State, l: Label)
    requires Inv(s) && Enabled(capacity, s, l)
    ensures Keys(Apply(capacity, s, l).records)
         == Keys(s.records) + if l.LlmSentence? then [(l.turn, l.seqNo)] else []
  {
    hide OnSentence, OnInterrupted, Judge, IoOk, TokensOk, CountsOk, LogOk, CancelsJustified;
    match l
    case LlmSentence(t, n) =>
      SentenceKeepsRest(s, t, n);
      var r := OnSentence(s, t, n).records;
      assert forall i | 0 <= i < |s.records| :: r[i] == r[..|s.records|][i];
    case UserInterrupted(t) => InterruptKeepsKeys(s, t);
    case Judges => JudgeKeepsKeys(s, if s.io.job.token in s.cancelled then Cancelled else if s.io.failed then Errored else Synthesized);
    case IoChecks => JudgeKeepsKeys(s, Cancelled);
    case _ =>
  }

  lemma InterruptKeepsKeys(s: State, t: nat)
    requires PendingOk(s)
    ensures Keys(OnInterrupted(s, t).records) == Keys(s.records)
  {
    InterruptRecords(s, t);
    hide PendingOk, MarkDropped, Keep, KeepShrinks;
  }

  lemma JudgeKeepsKeys(s: State, verdict: Outcome)
    requires s.io.Busy? && s.io.job.id < |s.records|
    ensures Keys(Judge(s, verdict).records) == Keys(s.records)
  {
  }

  /** Over every schedule: the sentences recorded are those delivered, each with its turn and number, in order. */
  lemma {:induction false} RecordsAreDelivered(capacity: nat, schedule: seq<Label>, s: State)
    requires Run(capacity, INITIAL, schedule) == Some(s)
    ensures Keys(s.records) == Delivered(schedule)
  {
    if schedule != [] {
      NoRunWithoutFront(capacity, schedule, s);
      var before := Before(capacity, schedule);
      RecordsAreDelivered(capacity, schedule[..|schedule| - 1], before);
      EveryScheduleKeepsInv(capacity, schedule[..|schedule| - 1]);
      RecordStep(capacity, before, schedule[|schedule| - 1]);
      hide Apply, Keys, Inv;
    }
  }

  // ----- the I/O thread -----

  lemma IoStep(capacity: nat, s: State, l: Label)
    requires Enabled(capacity, s, l)
    ensures var s' := Apply(capacity, s, l);
      && s'.submissions == s.submissions + (if l.IoChecks? && s.io.job.token !in s.cancelled then [s.io.job] else [])
      && (!OfIoThread(l) ==> s'.io == s.io)
      && (OfIoThread(l) && !l.IoPops? && s'.io.Busy? && l != SynthesisFails ==> s.io.Busy? && s'.io.failed == s.io.failed)
      && (l.IoPops? ==> s'.io.Busy? && !s'.io.failed) && (l.SynthesisFails? ==> s'.io.Busy? && s'.io.failed)
  {
    hide OnSentence, OnInterrupted, Judge;
    match l
    case LlmSentence(t, n) => SentenceKeepsRest(s, t, n);
    case UserInterrupted(t) => InterruptKeepsRest(s, t);
    case Judges => JudgeKeepsRest(s, if s.io.job.token in s.cancelled then Cancelled else if s.io.failed then Errored else Synthesized);
    case IoChecks => JudgeKeepsRest(s, Cancelled);
    case _ =>
  }

  lemma IoStepLeaves(capacity: nat, s: State, l: Label)
    requires Enabled(capacity, s, l) && OfIoThread(l)
    ensures Leaves(s, l, s.io.Busy? && s.io.failed, Apply(capacity, s, l).io)
  {
    hide OnSentence, OnInterrupted;
  }

  /**
   Over every schedule: the I/O thread stands where its own last step left it, whatever the
   subscriber did since. A job is synthesized exactly when its check found it live, a chunk
   is let through exactly when synthesis has not failed and its check found the job live, and
   the verdict is cancelled, errored or synthesized in that order.
   */
  lemma {:induction false} IoThreadStands(capacity: nat, schedule: seq<Label>, s: State)
    requires Run(capacity, INITIAL, schedule) == Some(s)
    ensures IoStands(capacity, schedule, s.io) && (s.io.Busy? ==> s.io.failed == Failed(schedule))
  {
    if schedule != [] {
      NoRunWithoutFront(capacity, schedule, s);
      var before, l := Before(capacity, schedule), schedule[|schedule| - 1];
      IoThreadStands(capacity, schedule[..|schedule| - 1], before);
      IoStep(capacity, before, l);
      if OfIoThread(l) {
        IoStepLeaves(capacity, before, l);
      }
      hide Apply, Run;
    }
  }

  /** Over every schedule: the jobs submitted to the synthesizer are those found live in front of it, in order. */
  lemma {:induction false} SubmissionsAreHandedOver(capacity: nat, schedule: seq<Label>, s: State)
    requires Run(capacity, INITIAL, schedule) == Some(s)
    ensures s.submissions == HandedOver(capacity, schedule)
  {
    if schedule != [] {
      NoRunWithoutFront(capacity, schedule, s);
      var before := Before(capacity, schedule);
      SubmissionsAreHandedOver(capacity, schedule[..|schedule| - 1], before);
      IoStep(capacity, before, schedule[|schedule| - 1]);
      hide Apply;
    }
  }

  // ----- the counters -----

  lemma {:induction false} CountOne(records: seq<Record>, i: nat, r: Record, o: Outcome)
    requires i < |records|
    ensures Count(records[i := r], o) + (if records[i].outcome == o then 1 else 0)
         == Count(records, o) + (if r.outcome == o then 1 else 0)
    decreases |records|
  {
    var n := |records| - 1;
    if i < n {
      assert records[i := r][..n] == records[..n][i := r];
      CountOne(records[..n], i, r, o);
    } else {
      assert records[i := r][..n] == records[..n];
    }
  }

  lemma CountAdded(records: seq<Record>, r: Record, o: Outcome)
    ensures Count(records + [r], o) == Count(records, o) + if r.outcome == o then 1 else 0
  {
    assert (records + [r])[..|records|] == records;
  }

  /** Marking the dropped sentences turns as many open records into cancelled ones. */
  lemma {:induction false} DroppedAreCounted(records: seq<Record>, pending: seq<Job>, t: nat, o: Outcome)
    requires Known(pending, records) && Increasing(pending) && forall j | j in pending :: records[j.id].outcome == Open
    requires o != Open
    ensures var n := KeepShrinks(pending, t);
      Count(MarkDropped(records, pending, t), o)
        == Count(records, o) + if o == Cancelled then n else 0
  {
    if pending != [] {
      var rest, last := pending[..|pending| - 1], pending[|pending| - 1];
      assert pending == rest + [last];
      DroppedAreCounted(records, rest, t, o);
      MarkMarks(records, rest, t);
      var r := MarkDropped(records, rest, t);
      assert r[last.id] == records[last.id];
      CountOne(r, last.id, r[last.id].(outcome := Cancelled), o);
    }
  }

  /** How many settled sentences the counters do not show yet. */
  function Uncounted(s: State, o: Outcome): nat {
    if s.io.Busy? && s.io.phase == Judged(o) then 1 else 0
  }

  /** Every counter is the number of sentences with its outcome. */
  ghost predicate CountersFit(s: State) {
    && s.synthesizedCount + Uncounted(s, Synthesized) == Count(s.records, Synthesized)
    && s.erroredCount + Uncounted(s, Errored) == Count(s.records, Errored)
    && s.cancelledCount + Uncounted(s, Cancelled) == Count(s.records, Cancelled)
  }

  lemma SentenceFits(s: State, t: nat, n: nat)
    requires CountersFit(s)
    ensures CountersFit(OnSentence(s, t, n))
  {
    var s1 := WithToken(s, t);
    var r := Record(t, n, s1.tokens[t], if s1.tokens[t] in s1.cancelled then Cancelled else Open);
    CountAdded(s.records, r, Synthesized);
    CountAdded(s.records, r, Errored);
    CountAdded(s.records, r, Cancelled);
  }

  lemma InterruptFits(s: State, t: nat)
    requires PendingOk(s) && CountersFit(s)
    ensures CountersFit(OnInterrupted(s, t))
  {
    DroppedAreCounted(s.records, s.pending, t, Synthesized);
    DroppedAreCounted(s.records, s.pending, t, Errored);
    DroppedAreCounted(s.records, s.pending, t, Cancelled);
    InterruptKeepsRest(s, t);
    hide Keep, KeepShrinks, MarkDropped, Count;
  }

  lemma JudgeFits(s: State, verdict: Outcome)
    requires IoOk(s) && CountersFit(s) && s.io.Busy? && Unjudged(s.io.phase) && verdict != Open
    ensures CountersFit(Judge(s, verdict))
  {
    var id := s.io.job.id;
    var r := s.records[id].(outcome := verdict);
    CountOne(s.records, id, r, Synthesized);
    CountOne(s.records, id, r, Errored);
    CountOne(s.records, id, r, Cancelled);
    hide Count;
  }

  lemma CountStep(capacity: nat, s: State, l: Label)
    requires Inv(s) && Enabled(capacity, s, l) && CountersFit(s)
    ensures CountersFit(Apply(capacity, s, l))
  {
    hide OnSentence, OnInterrupted, Judge, TokensOk, CountsOk, LogOk, CancelsJustified, Count;
    match l
    case LlmSentence(t, n) => SentenceFits(s, t, n);
    case UserInterrupted(t) => InterruptFits(s, t);
    case Judges => JudgeFits(s, if s.io.job.token in s.cancelled then Cancelled else if s.io.failed then Errored else Synthesized);
    case IoChecks =>
      if s.io.job.token in s.cancelled {
        JudgeFits(s, Cancelled);
      }
    case _ =>
  }

  /** Over every schedule: each counter is the number of sentences that ended so, but for one just judged. */
  lemma {:induction false} OutcomesAreCounted(capacity: nat, schedule: seq<Label>, s: State)
    requires Run(capacity, INITIAL, schedule) == Some(s)
    ensures CountersFit(s)
  {
    if schedule != [] {
      NoRunWithoutFront(capacity, schedule, s);
      var before := Before(capacity, schedule);
      OutcomesAreCounted(capacity, schedule[..|schedule| - 1], before);
      EveryScheduleKeepsInv(capacity, schedule[..|schedule| - 1]);
      CountStep(capacity, before, schedule[|schedule| - 1]);
      hide Apply, Inv, CountersFit;
    }
  }

  // ----- the tokens -----

  ghost function StillToCancel(s: State): set<nat> {
    if s.sub.Cancelling? then set k | k in s.sub.left else {}
  }

  lemma DoomStep(capacity: nat, s: State, l: Label)
    requires Enabled(capacity, s, l)
    ensures var s' := Apply(capacity, s, l);
      var flying := if s.inFlight.Some? then {s.inFlight.value} else {};
      s'.cancelled + StillToCancel(s') == s.cancelled + StillToCancel(s) +
        match l
        case UserInterrupted(t) => flying + {if t in s.tokens then s.tokens[t] else s.nextToken}
        case StopLocks => flying
        case _ => {}
  {
    hide OnSentence, OnInterrupted, Judge;
    match l
    case LlmSentence(t, n) => SentenceKeepsRest(s, t, n);
    case UserInterrupted(t) => InterruptDooms(s, t);
    case Judges => JudgeKeepsRest(s, if s.io.job.token in s.cancelled then Cancelled else if s.io.failed then Errored else Synthesized);
    case IoChecks => JudgeKeepsRest(s, Cancelled);
    case CancelNext =>
      if s.sub.left != [] {
        assert s.sub.left == [s.sub.left[0]] + s.sub.left[1..];
      }
    case _ =>
  }

  lemma InterruptDooms(s: State, t: nat)
    requires Known(s.pending, s.records) && s.sub.Ready?
    ensures var s' := OnInterrupted(s, t);
      var flying := if s.inFlight.Some? then {s.inFlight.value} else {};
      s'.cancelled + StillToCancel(s')
        == s.cancelled + StillToCancel(s) + (flying + {if t in s.tokens then s.tokens[t] else s.nextToken})
  {
    hide Keep, KeepShrinks, MarkDropped;
  }

  /**
   Over every schedule: the tokens cancelled, and those an interrupt's handler has still to
   cancel, are exactly those that interrupts and a stop took aim at: the turn's own token,
   be it minted for the purpose, and the token of the job in flight, whichever turn it is of.
   */
  lemma {:induction false} CancelledAreDoomed(capacity: nat, schedule: seq<Label>, s: State)
    requires Run(capacity, INITIAL, schedule) == Some(s)
    ensures s.cancelled + StillToCancel(s) == Doomed(capacity, schedule)
  {
    if schedule != [] {
      NoRunWithoutFront(capacity, schedule, s);
      var before := Before(capacity, schedule);
      CancelledAreDoomed(capacity, schedule[..|schedule| - 1], before);
      DoomStep(capacity, before, schedule[|schedule| - 1]);
      hide Apply, StillToCancel;
    }
  }

  /** No token is shared between turns. */
  ghost predicate Owned(s: State) {
    && (forall t, u | t in s.tokens && u in s.tokens && s.tokens[t] == s.tokens[u] :: t == u)
    && (forall t, i | t in s.tokens && 0 <= i < |s.records| && s.records[i].token == s.tokens[t] :: s.records[i].turn == t)
    && (forall i, k | 0 <= i < k < |s.records| && s.records[i].token == s.records[k].token ::
          s.records[i].turn == s.records[k].turn)
  }

  lemma MintOwns(s: State, t: nat)
    requires TokensOk(s) && Owned(s)
    ensures Owned(s.(tokens := s.tokens[t := s.nextToken], nextToken := s.nextToken + 1))
  {
    assert forall i | 0 <= i < |s.records| :: s.records[i] in s.records;
  }

  lemma SentenceOwns(s: State, t: nat, n: nat)
    requires TokensOk(s) && Owned(s)
    ensures Owned(OnSentence(s, t, n))
  {
    MintOwns(s, t);
  }

  lemma SameOwners(s: State, s': State)
    requires Owned(s) && |s'.records| == |s.records| && s'.tokens.Keys <= s.tokens.Keys
    requires forall t | t in s'.tokens :: s'.tokens[t] == s.tokens[t]
    requires forall i | 0 <= i < |s.records| :: s'.records[i].turn == s.records[i].turn && s'.records[i].token == s.records[i].token
    ensures Owned(s')
  {
  }

  lemma InterruptOwns(s: State, t: nat)
    requires JobsOk(s) && Owned(s)
    ensures Owned(OnInterrupted(s, t))
  {
    MintOwns(s, t);
    InterruptRecords(s, t);
    hide Keep, KeepShrinks, MarkDropped, PendingOk, IoOk;
    var minted := if t in s.tokens then s else s.(tokens := s.tokens[t := s.nextToken], nextToken := s.nextToken + 1);
    SameOwners(minted, OnInterrupted(s, t));
  }

  lemma OwnStep(capacity: nat, s: State, l: Label)
    requires Inv(s) && Enabled(capacity, s, l) && Owned(s)
    ensures Owned(Apply(capacity, s, l))
  {
    hide OnSentence, OnInterrupted, CountsOk, LogOk, CancelsJustified, Owned;
    match l
    case LlmStarted(t) => MintOwns(s, t);
    case LlmSentence(t, n) => SentenceOwns(s, t, n);
    case UserInterrupted(t) => InterruptOwns(s, t);
    case _ =>
      var s' := Apply(capacity, s, l);
      SameOwners(s, s');
  }

  /** Over every schedule: no two turns share a token, so that only a job in flight is cancelled for another turn. */
  lemma {:induction false} TokensAreOwned(capacity: nat, schedule: seq<Label>, s: State)
    requires Run(capacity, INITIAL, schedule) == Some(s)
    ensures Owned(s)
  {
    if schedule != [] {
      NoRunWithoutFront(capacity, schedule, s);
      var before := Before(capacity, schedule);
      TokensAreOwned(capacity, schedule[..|schedule| - 1], before);
      EveryScheduleKeepsInv(capacity, schedule[..|schedule| - 1]);
      OwnStep(capacity, before, schedule[|schedule| - 1]);
      hide Apply, Inv, Owned;
    }
  }

  // ----- stopping -----

  lemma {:induction false} OutcomesPartition(records: seq<Record>)
    ensures Count(records, Open) + Count(records, Synthesized) + Count(records, Errored) + Count(records, Cancelled)
         == |records|
    ensures Count(records, Open) == 0 ==> forall r | r in records :: r.outcome != Open
  {
    if records != [] {
      OutcomesPartition(records[..|records| - 1]);
      assert records == records[..|records| - 1] + [records[|records| - 1]];
    }
  }

  /** How far a stop has come. */
  predicate StopOk(s: State) {
    (s.stopping ==> s.sub.Stopped?) && (s.io.Exited? ==> s.stopping && s.pending == [])
  }

  lemma StopStep(capacity: nat, s: State, l: Label)
    requires Enabled(capacity, s, l) && StopOk(s)
    ensures var s' := Apply(capacity, s, l);
      && StopOk(s') && s'.stopping == (s.stopping || l == StopLocks)
      && (s'.sub.Stopped? <==> s.sub.Stopped? || l == StopSubscription)
  {
    SubscriberStep(capacity, s, l);
    hide OnSentence, OnInterrupted, Judge;
    match l
    case LlmSentence(t, n) => SentenceKeepsRest(s, t, n);
    case UserInterrupted(t) => InterruptKeepsRest(s, t);
    case Judges => JudgeKeepsRest(s, if s.io.job.token in s.cancelled then Cancelled else if s.io.failed then Errored else Synthesized);
    case IoChecks => JudgeKeepsRest(s, Cancelled);
    case _ =>
  }

  lemma LastIsIn(schedule: seq<Label>, l: Label)
    requires schedule != []
    ensures l in schedule <==> l in schedule[..|schedule| - 1] || l == schedule[|schedule| - 1]
  {
    assert schedule == schedule[..|schedule| - 1] + [schedule[|schedule| - 1]];
  }

  lemma {:induction false} StopIsTold(capacity: nat, schedule: seq<Label>, s: State)
    requires Run(capacity, INITIAL, schedule) == Some(s)
    ensures StopOk(s) && (s.stopping <==> StopLocks in schedule) && (s.sub.Stopped? <==> StopSubscription in schedule)
  {
    if schedule != [] {
      NoRunWithoutFront(capacity, schedule, s);
      var before := Before(capacity, schedule);
      StopIsTold(capacity, schedule[..|schedule| - 1], before);
      StopStep(capacity, before, schedule[|schedule| - 1]);
      LastIsIn(schedule, StopLocks);
      LastIsIn(schedule, StopSubscription);
      hide Apply, Run;
    }
  }

  /**
   Over every schedule: the I/O thread leaves only behind a stop, and only when it has drained
   the queue: every sentence ever delivered has then been synthesized, errored or cancelled,
   and is counted as such.
   */
  lemma StopDrains(capacity: nat, schedule: seq<Label>, s: State)
    requires Run(capacity, INITIAL, schedule) == Some(s)
    ensures s.stopping <==> StopLocks in schedule
    ensures s.io.Exited? ==>
      && StopLocks in schedule && StopSubscription in schedule && s.pending == []
      && (forall r | r in s.records :: r.outcome != Open)
      && s.synthesizedCount + s.erroredCount + s.cancelledCount == |Delivered(schedule)|
  {
    StopIsTold(capacity, schedule, s);
    OutcomesAreCounted(capacity, schedule, s);
    OutcomesPartition(s.records);
    SentencesAreConserved(capacity, schedule, s);
    RecordsAreDelivered(capacity, schedule, s);
    assert |Keys(s.records)| == |s.records|;
    hide Run, Count, Delivered, Keys;
  }
}
