/**
 What every interleaving of the bridge's two threads keeps, and what an interrupt silences.
 */
module TtsBridgeTheorems {
  import opened Wrappers
  import opened TtsBridges

  // ----- invariants -----

  ghost predicate Increasing(pending: seq<Job>) {
    forall a, b | 0 <= a < b < |pending| :: pending[a].id < pending[b].id
  }

  /** The record of job `j` says what the job says. */
  predicate Recorded(records: seq<Record>, j: Job) {
    && j.id < |records|
    && records[j.id].turn == j.turn && records[j.id].seqNo == j.seqNo && records[j.id].token == j.token
  }

  predicate Unjudged(p: Phase) { !p.Judged? && !p.Counted? }

  ghost predicate PendingOk(s: State) {
    && Increasing(s.pending)
    && (forall j | j in s.pending :: Recorded(s.records, j) && s.records[j.id].outcome == Open)
  }

  ghost predicate IoOk(s: State) {
    && s.inFlight == (if s.io.Busy? then Some(s.io.job.token) else None)
    && (s.io.Busy? ==>
          && Recorded(s.records, s.io.job)
          && (forall j | j in s.pending :: s.io.job.id < j.id)
          && (Unjudged(s.io.phase) <==> s.records[s.io.job.id].outcome == Open)
          && (s.io.phase.Judged? ==> s.io.phase.verdict == s.records[s.io.job.id].outcome))
  }

  ghost predicate TokensOk(s: State) {
    && (forall t | t in s.tokens :: s.tokens[t] < s.nextToken)
    && (forall k | k in s.cancelled :: k < s.nextToken)
    && (forall r | r in s.records :: r.token < s.nextToken)
    && (s.sub.Cancelling? ==> forall k | k in s.sub.left :: k < s.nextToken)
    && (s.inFlight.Some? ==> s.inFlight.value < s.nextToken)
  }

  ghost predicate CountsOk(s: State) {
    |s.records| == s.synthesizedCount + s.cancelledCount + s.erroredCount + |s.pending|
                 + (if s.io.Busy? && !s.io.phase.Counted? then 1 else 0)
  }

  predicate HasEos(log: seq<Chunk>, id: nat) {
    exists i | 0 <= i < |log| :: log[i].id == id && log[i].endOfSentence
  }

  /** The log is one block per job, in job order, and nothing follows a block's last chunk. */
  ghost predicate LogSorted(log: seq<Chunk>) {
    forall a, b | 0 <= a < b < |log| ::
      log[a].id <= log[b].id && (log[a].endOfSentence ==> log[a].id < log[b].id)
  }

  predicate BeforeEos(p: Phase) {
    p == Submitting || p == AudioChecked || p == Submitted || p == EosChecked
  }

  ghost predicate LogFits(s: State) {
    forall c | c in s.log ::
      && c.id < |s.records| && s.records[c.id].turn == c.turn && s.records[c.id].seqNo == c.seqNo
      && (forall j | j in s.pending :: c.id < j.id)
      && (s.io.Busy? ==>
            && c.id <= s.io.job.id
            && (s.io.phase == JustPopped || (c.endOfSentence && BeforeEos(s.io.phase)) ==> c.id < s.io.job.id))
  }

  ghost predicate EosPresent(s: State) {
    && (forall id | 0 <= id < |s.records| && (s.records[id].outcome == Synthesized || s.records[id].outcome == Errored)
          :: HasEos(s.log, id))
    && (InPhase(s, Closing) && s.io.job.token !in s.cancelled ==> HasEos(s.log, s.io.job.id))
  }

  /** A sentence is only ever given up because its token was cancelled or its turn interrupted. */
  ghost predicate CancelsJustified(s: State) {
    forall r | r in s.records && r.outcome == Cancelled :: r.token in s.cancelled || r.turn in s.interrupted
  }

  ghost predicate JobsOk(s: State) { PendingOk(s) && IoOk(s) && TokensOk(s) }

  ghost predicate LogOk(s: State) { LogSorted(s.log) && LogFits(s) && EosPresent(s) }

  ghost predicate Inv(s: State) { JobsOk(s) && CountsOk(s) && LogOk(s) && CancelsJustified(s) }

  // ----- what an interrupt does to the pending jobs -----

  lemma {:induction false} KeepKeeps(pending: seq<Job>, turn: nat)
    requires Increasing(pending)
    ensures Increasing(Keep(pending, turn))
    ensures forall j :: j in Keep(pending, turn) <==> j in pending && j.turn != turn
  {
    if pending != [] {
      var rest, last := pending[..|pending| - 1], pending[|pending| - 1];
      KeepKeeps(rest, turn);
      assert pending == rest + [last];
      var k := Keep(rest, turn);
      assert forall j | j in k :: j.id < last.id;
    }
  }

  lemma {:induction false} MarkMarks(records: seq<Record>, pending: seq<Job>, turn: nat)
    requires Known(pending, records)
    ensures var r := MarkDropped(records, pending, turn);
      forall i | 0 <= i < |records| ::
        r[i] == if (exists j :: j in pending && j.id == i && j.turn == turn)
                then records[i].(outcome := Cancelled) else records[i]
  {
    if pending != [] {
      var rest, last := pending[..|pending| - 1], pending[|pending| - 1];
      assert pending == rest + [last];
      MarkMarks(records, rest, turn);
    }
  }

  /** What an interrupt does to the records: the pending ones of its turn end, nothing else changes. */
  lemma InterruptRecords(s: State, t: nat)
    requires PendingOk(s)
    ensures var r := MarkDropped(s.records, s.pending, t);
      && |r| == |s.records|
      && (forall i | 0 <= i < |r| ::
            r[i].turn == s.records[i].turn && r[i].seqNo == s.records[i].seqNo && r[i].token == s.records[i].token)
      && (forall i | 0 <= i < |r| :: r[i].outcome == s.records[i].outcome
            || (r[i].outcome == Cancelled && s.records[i].outcome == Open && r[i].turn == t))
      && (forall j | j in s.pending && j.turn != t :: r[j.id] == s.records[j.id])
      && (s.io.Busy? && IoOk(s) ==> r[s.io.job.id] == s.records[s.io.job.id])
  {
    MarkMarks(s.records, s.pending, t);
  }

  // ----- each step keeps the invariants -----

  lemma MintKeepsInv(s: State, t: nat)
    requires Inv(s)
    ensures Inv(WithToken(s, t))
  {
    assert TokensOk(WithToken(s, t));
    assert LogFits(WithToken(s, t));
  }

  ghost function AddRecord(s: State, r: Record): State {
    if r.outcome == Open
    then s.(records := s.records + [r], pending := s.pending + [Job(r.turn, r.seqNo, r.token, |s.records|)])
    else s.(records := s.records + [r], cancelledCount := s.cancelledCount + 1)
  }

  lemma RecordKeepsPending(s: State, r: Record)
    requires PendingOk(s) && IoOk(s)
    ensures PendingOk(AddRecord(s, r)) && IoOk(AddRecord(s, r))
  {
    var s' := AddRecord(s, r);
    assert forall j | j in s'.pending :: j in s.pending || (r.outcome == Open && j == s'.pending[|s.pending|]);
    assert forall i | 0 <= i < |s.records| :: s'.records[i] == s.records[i];
    assert PendingOk(s');
  }

  lemma RecordKeepsJobs(s: State, r: Record)
    requires JobsOk(s) && CountsOk(s) && r.token < s.nextToken
    ensures JobsOk(AddRecord(s, r)) && CountsOk(AddRecord(s, r))
  {
    RecordKeepsPending(s, r);
    assert TokensOk(AddRecord(s, r));
  }

  lemma RecordKeepsLog(s: State, r: Record)
    requires Inv(s) && (r.outcome == Open || (r.outcome == Cancelled && r.token in s.cancelled))
    ensures LogOk(AddRecord(s, r)) && CancelsJustified(AddRecord(s, r))
  {
    var s' := AddRecord(s, r);
    assert LogFits(s');
    assert EosPresent(s');
  }

  lemma SentenceKeepsInv(s: State, t: nat, n: nat)
    requires Inv(s)
    ensures Inv(OnSentence(s, t, n))
  {
    MintKeepsInv(s, t);
    var s1 := WithToken(s, t);
    var k := s1.tokens[t];
    var r := Record(t, n, k, if k in s1.cancelled then Cancelled else Open);
    assert OnSentence(s, t, n) == AddRecord(s1, r);
    RecordKeepsJobs(s1, r);
    RecordKeepsLog(s1, r);
  }

  lemma InterruptKeepsPending(s: State, t: nat)
    requires PendingOk(s) && IoOk(s)
    ensures PendingOk(OnInterrupted(s, t)) && IoOk(OnInterrupted(s, t))
  {
    InterruptRecords(s, t);
    KeepKeeps(s.pending, t);
    assert PendingOk(OnInterrupted(s, t));
  }

  lemma InterruptKeepsTokens(s: State, t: nat)
    requires PendingOk(s) && TokensOk(s)
    ensures TokensOk(OnInterrupted(s, t))
  {
    InterruptRecords(s, t);
    var s' := OnInterrupted(s, t);
    forall r | r in s'.records ensures r.token < s'.nextToken {
      var i :| 0 <= i < |s'.records| && s'.records[i] == r;
      assert s.records[i] in s.records;
    }
  }

  lemma InterruptKeepsFits(s: State, t: nat)
    requires PendingOk(s) && IoOk(s) && LogFits(s)
    ensures LogFits(OnInterrupted(s, t))
  {
    InterruptRecords(s, t);
    KeepKeeps(s.pending, t);
    hide PendingOk, IoOk, MarkDropped, Keep;
  }

  lemma InterruptKeepsEos(s: State, t: nat)
    requires PendingOk(s) && EosPresent(s)
    ensures EosPresent(OnInterrupted(s, t))
  {
    InterruptRecords(s, t);
    hide PendingOk, HasEos, MarkDropped, Keep;
  }

  lemma InterruptKeepsLog(s: State, t: nat)
    requires PendingOk(s) && IoOk(s) && LogOk(s)
    ensures LogOk(OnInterrupted(s, t))
  {
    InterruptKeepsFits(s, t);
    InterruptKeepsEos(s, t);
    hide LogFits, EosPresent, PendingOk, IoOk, LogSorted;
    assert OnInterrupted(s, t).log == s.log;
  }

  lemma InterruptKeepsReasons(s: State, t: nat)
    requires PendingOk(s) && CancelsJustified(s)
    ensures CancelsJustified(OnInterrupted(s, t))
  {
    InterruptRecords(s, t);
    hide PendingOk;
    var s' := OnInterrupted(s, t);
    forall r | r in s'.records && r.outcome == Cancelled
      ensures r.token in s'.cancelled || r.turn in s'.interrupted
    {
      var i :| 0 <= i < |s'.records| && s'.records[i] == r;
      assert s.records[i] in s.records;
    }
  }

  lemma InterruptKeepsCounts(s: State, t: nat)
    requires PendingOk(s) && CountsOk(s)
    ensures CountsOk(OnInterrupted(s, t))
  {
    InterruptRecords(s, t);
  }

  lemma InterruptKeepsInv(s: State, t: nat)
    requires Inv(s)
    ensures Inv(OnInterrupted(s, t))
  {
    hide OnInterrupted, PendingOk, IoOk, TokensOk, CountsOk, LogOk, CancelsJustified;
    InterruptKeepsPending(s, t);
    InterruptKeepsTokens(s, t);
    InterruptKeepsCounts(s, t);
    InterruptKeepsLog(s, t);
    InterruptKeepsReasons(s, t);
  }

  lemma SubscriberKeepsInv(capacity: nat, s: State, l: Label)
    requires Inv(s) && Enabled(capacity, s, l)
    requires l.LlmStarted? || l.LlmFinished? || l.ClearQueue? || l.StopSubscription?
    ensures Inv(Apply(capacity, s, l))
  {
    hide OnSentence, OnInterrupted;
    assert TokensOk(Apply(capacity, s, l));
    assert LogFits(Apply(capacity, s, l));
  }

  lemma CancelKeepsInv(capacity: nat, s: State, l: Label)
    requires Inv(s) && Enabled(capacity, s, l)
    requires l.CancelNext? || l.StopLocks?
    ensures Inv(Apply(capacity, s, l))
  {
    hide OnSentence, OnInterrupted;
    var s' := Apply(capacity, s, l);
    if l.CancelNext? && s.sub.left != [] {
      assert s.sub.left[0] in s.sub.left;
      assert forall k | k in s.sub.left[1..] :: k in s.sub.left;
    }
    assert TokensOk(s');
    assert LogFits(s');
  }

  lemma PopKeepsInv(capacity: nat, s: State)
    requires Inv(s) && Enabled(capacity, s, IoPops)
    ensures Inv(Apply(capacity, s, IoPops))
  {
    hide OnSentence, OnInterrupted;
    var s' := Apply(capacity, s, IoPops);
    assert s.pending == [s.pending[0]] + s'.pending;
    assert forall j | j in s'.pending :: j in s.pending;
    assert JobsOk(s');
    assert LogFits(s');
  }

  lemma HasEosGrows(log: seq<Chunk>, c: Chunk)
    ensures forall id | HasEos(log, id) :: HasEos(log + [c], id)
    ensures c.endOfSentence ==> HasEos(log + [c], c.id)
  {
    forall id | HasEos(log, id) ensures HasEos(log + [c], id) {
      var i :| 0 <= i < |log| && log[i].id == id && log[i].endOfSentence;
      assert (log + [c])[i] == log[i];
    }
    assert (log + [c])[|log|] == c;
  }

  lemma EnqueueKeepsSorted(s: State, eos: bool)
    requires JobsOk(s) && LogSorted(s.log) && LogFits(s)
    requires (InPhase(s, AudioChecked) && !eos) || (InPhase(s, EosChecked) && eos)
    ensures LogSorted(Enqueue(s, eos).log)
  {
    assert forall a | 0 <= a < |s.log| :: s.log[a] in s.log;
  }

  lemma EnqueueKeepsFits(s: State, eos: bool)
    requires JobsOk(s) && LogFits(s)
    requires (InPhase(s, AudioChecked) && !eos) || (InPhase(s, EosChecked) && eos)
    ensures LogFits(Go(Enqueue(s, eos), if eos then Closing else Submitting))
  {
    var s' := Go(Enqueue(s, eos), if eos then Closing else Submitting);
    assert forall c | c in s'.log :: c in s.log || c == s'.log[|s.log|];
  }

  lemma EnqueueKeepsInv(s: State, eos: bool)
    requires Inv(s) && ((InPhase(s, AudioChecked) && !eos) || (InPhase(s, EosChecked) && eos))
    ensures Inv(Go(Enqueue(s, eos), if eos then Closing else Submitting))
  {
    EnqueueKeepsSorted(s, eos);
    EnqueueKeepsFits(s, eos);
    var s' := Go(Enqueue(s, eos), if eos then Closing else Submitting);
    HasEosGrows(s.log, s'.log[|s.log|]);
    assert s'.log == s.log + [s'.log[|s.log|]];
    assert EosPresent(s');
  }

  /** Steps that only move the I/O thread on within its job. */
  lemma MoveKeepsInv(capacity: nat, s: State, l: Label)
    requires Inv(s) && Enabled(capacity, s, l)
    requires l.AudioChecks? || l.SynthesisFails? || l.SubmitReturns? || l.EosChecks? || l.EosGivesUp?
    ensures Inv(Apply(capacity, s, l))
  {
    hide OnSentence, OnInterrupted;
    assert IoOk(Apply(capacity, s, l));
    assert LogFits(Apply(capacity, s, l));
    assert EosPresent(Apply(capacity, s, l));
  }

  lemma CountKeepsJobs(capacity: nat, s: State)
    requires JobsOk(s) && CountsOk(s) && Enabled(capacity, s, Counts)
    ensures JobsOk(Apply(capacity, s, Counts)) && CountsOk(Apply(capacity, s, Counts))
  {
    hide OnSentence, OnInterrupted;
    assert IoOk(Apply(capacity, s, Counts));
  }

  lemma CountKeepsLog(capacity: nat, s: State)
    requires LogOk(s) && CancelsJustified(s) && Enabled(capacity, s, Counts)
    ensures LogOk(Apply(capacity, s, Counts)) && CancelsJustified(Apply(capacity, s, Counts))
  {
    hide OnSentence, OnInterrupted;
    var s' := Apply(capacity, s, Counts);
    assert s'.log == s.log && s'.records == s.records && s'.pending == s.pending;
    assert LogFits(s');
    assert EosPresent(s');
  }

  lemma CountKeepsInv(capacity: nat, s: State)
    requires Inv(s) && Enabled(capacity, s, Counts)
    ensures Inv(Apply(capacity, s, Counts))
  {
    hide Apply, JobsOk, CountsOk, LogOk, CancelsJustified;
    CountKeepsJobs(capacity, s);
    CountKeepsLog(capacity, s);
  }

  lemma EndKeepsInv(capacity: nat, s: State, l: Label)
    requires Inv(s) && Enabled(capacity, s, l)
    requires l.IoReleases? || l.PlaybackTakes? || l.IoExits?
    ensures Inv(Apply(capacity, s, l))
  {
    hide OnSentence, OnInterrupted;
    assert IoOk(Apply(capacity, s, l));
    assert LogFits(Apply(capacity, s, l));
    assert EosPresent(Apply(capacity, s, l));
  }

  lemma JudgeKeepsInv(s: State, verdict: Outcome)
    requires Inv(s) && s.io.Busy? && Unjudged(s.io.phase) && verdict != Open
    requires verdict == Cancelled ==> s.io.job.token in s.cancelled
    requires verdict != Cancelled ==> InPhase(s, Closing) && s.io.job.token !in s.cancelled
    ensures Inv(Judge(s, verdict))
  {
    var s' := Judge(s, verdict);
    var id := s.io.job.id;
    forall r | r in s'.records
      ensures r.token < s'.nextToken
      ensures r.outcome == Cancelled ==> r.token in s'.cancelled || r.turn in s'.interrupted
    {
      var i :| 0 <= i < |s'.records| && s'.records[i] == r;
      assert s.records[i] in s.records;
    }
    assert JobsOk(s');
    assert LogFits(s');
    assert EosPresent(s');
  }

  lemma StepKeepsInv(capacity: nat, s: State, l: Label)
    requires Inv(s) && Enabled(capacity, s, l)
    ensures Inv(Apply(capacity, s, l))
  {
    hide Inv, OnSentence, OnInterrupted;
    match l
    case LlmSentence(t, n) => SentenceKeepsInv(s, t, n);
    case UserInterrupted(t) => InterruptKeepsInv(s, t);
    case IoPops => PopKeepsInv(capacity, s);
    case IoChecks =>
      if s.io.job.token in s.cancelled {
        JudgeKeepsInv(s, Cancelled);
      } else {
        StartKeepsInv(s);
      }
    case AudioEnqueues => if Room(capacity, s) { EnqueueKeepsInv(s, false); } else { SkipKeepsInv(s); }
    case EosEnqueues => EnqueueKeepsInv(s, true);
    case Judges =>
      JudgeKeepsInv(s, if s.io.job.token in s.cancelled then Cancelled else if s.io.failed then Errored else Synthesized);
    case LlmStarted(_) | LlmFinished(_) | ClearQueue | StopSubscription => SubscriberKeepsInv(capacity, s, l);
    case CancelNext | StopLocks => CancelKeepsInv(capacity, s, l);
    case IoReleases | PlaybackTakes | IoExits => EndKeepsInv(capacity, s, l);
    case Counts => CountKeepsInv(capacity, s);
    case _ => MoveKeepsInv(capacity, s, l);
  }

  lemma StartKeepsInv(s: State)
    requires Inv(s) && InPhase(s, JustPopped)
    ensures Inv(Go(s, Submitting).(submissions := s.submissions + [s.io.job]))
  {
    var s' := Go(s, Submitting).(submissions := s.submissions + [s.io.job]);
    assert LogFits(s');
  }

  lemma SkipKeepsInv(s: State)
    requires Inv(s) && InPhase(s, AudioChecked)
    ensures Inv(Go(s, Submitting))
  {
    assert LogFits(Go(s, Submitting));
  }

  lemma {:induction false} EveryScheduleKeepsInv(capacity: nat, schedule: seq<Label>)
    ensures var r := Run(capacity, INITIAL, schedule); r.Some? ==> Inv(r.value)
  {
    if schedule != [] {
      var before := Run(capacity, INITIAL, schedule[..|schedule| - 1]);
      EveryScheduleKeepsInv(capacity, schedule[..|schedule| - 1]);
      if before.Some? && Enabled(capacity, before.value, schedule[|schedule| - 1]) {
        StepKeepsInv(capacity, before.value, schedule[|schedule| - 1]);
      }
    }
  }

  /** The guards on record numbers never hold a step up: the program has none. */
  lemma GuardsNeverBlock(capacity: nat, schedule: seq<Label>, s: State, t: nat)
    requires Run(capacity, INITIAL, schedule) == Some(s)
    ensures Enabled(capacity, s, UserInterrupted(t)) <==> s.sub.Ready?
    ensures Enabled(capacity, s, IoChecks) <==> InPhase(s, JustPopped)
    ensures Enabled(capacity, s, Judges) <==> InPhase(s, Closing)
  {
    EveryScheduleKeepsInv(capacity, schedule);
    hide Run, LogOk, CountsOk, CancelsJustified;
  }

  // ----- conservation and order -----

  /** Every sentence handled is counted once, pending, or the one job that is not yet counted. */
  lemma SentencesAreConserved(capacity: nat, schedule: seq<Label>, s: State)
    requires Run(capacity, INITIAL, schedule) == Some(s)
    ensures |s.records| == s.synthesizedCount + s.cancelledCount + s.erroredCount + |s.pending|
                         + (if s.io.Busy? && !s.io.phase.Counted? then 1 else 0)
  {
    EveryScheduleKeepsInv(capacity, schedule);
  }

  /**
   The chunks of a sentence stand together, in sentence order, closed by one last chunk:
   whenever the sentence was settled other than by being cancelled, even if its synthesis
   failed, that closing chunk is there, and no chunk of any sentence ever follows its own
   closing chunk.
   */
  lemma ChunksComeInSentenceOrder(capacity: nat, schedule: seq<Label>, s: State)
    requires Run(capacity, INITIAL, schedule) == Some(s)
    ensures LogSorted(s.log)
    ensures forall c | c in s.log :: c.id < |s.records| && c.turn == s.records[c.id].turn && c.seqNo == s.records[c.id].seqNo
    ensures forall id | 0 <= id < |s.records| :: s.records[id].outcome == Synthesized || s.records[id].outcome == Errored
              ==> ClosedOnce(s.log, id)
    ensures forall id | 0 <= id < |s.records| :: s.records[id].outcome == Cancelled
              ==> s.records[id].token in s.cancelled || s.records[id].turn in s.interrupted
  {
    EveryScheduleKeepsInv(capacity, schedule);
    forall id | 0 <= id < |s.records| && (s.records[id].outcome == Synthesized || s.records[id].outcome == Errored)
      ensures ClosedOnce(s.log, id)
    {
      var i :| 0 <= i < |s.log| && s.log[i].id == id && s.log[i].endOfSentence;
      assert ClosesAt(s.log, id, i);
    }
    forall id | 0 <= id < |s.records| && s.records[id].outcome == Cancelled
      ensures s.records[id].token in s.cancelled || s.records[id].turn in s.interrupted
    {
      assert s.records[id] in s.records;
    }
  }

  /** The chunk at i closes sentence `id`: it is its only closing chunk and its last chunk. */
  ghost predicate ClosesAt(log: seq<Chunk>, id: nat, i: int) {
    && 0 <= i < |log| && log[i].id == id && log[i].endOfSentence
    && (forall k | 0 <= k < |log| && log[k].id == id :: k <= i && (log[k].endOfSentence ==> k == i))
  }

  ghost predicate ClosedOnce(log: seq<Chunk>, id: nat) {
    exists i :: ClosesAt(log, id, i)
  }

  /** The chunks of one sentence are contiguous. */
  lemma BlocksAreContiguous(log: seq<Chunk>, a: nat, k: nat, b: nat)
    requires LogSorted(log) && a <= k <= b < |log| && log[a].id == log[b].id
    ensures log[k].id == log[a].id
  {
  }

  // ----- what an interrupt silences -----

  /** Whatever could still produce audio for turn t holds a token that is cancelled or in `soon`. */
  ghost predicate SilentUpTo(s: State, t: nat, soon: set<nat>) {
    && (t in s.tokens ==> s.tokens[t] in s.cancelled + soon)
    && (forall j | j in s.pending && j.turn == t :: j.token in s.cancelled + soon)
    && (s.io.Busy? && s.io.job.turn == t && Unjudged(s.io.phase) ==> s.io.job.token in s.cancelled + soon)
  }

  ghost predicate Silent(s: State, t: nat) {
    SilentUpTo(s, t, {})
  }

  /** The two events that give turn t a fresh token. */
  predicate Rearms(s: State, l: Label, t: nat) {
    l == LlmStarted(t) || (l.LlmSentence? && l.turn == t && t !in s.tokens)
  }

  function ChunksOf(log: seq<Chunk>, t: nat): nat {
    if log == [] then 0
    else ChunksOf(log[..|log| - 1], t) + (if log[|log| - 1].turn == t then 1 else 0)
  }

  /** 1 if a chunk of t has passed its check and is about to be enqueued. */
  function AlreadyChecked(s: State, t: nat): nat {
    if s.io.Busy? && s.io.job.turn == t && (s.io.phase == AudioChecked || s.io.phase == EosChecked) then 1 else 0
  }

  /** The sentences of turn t whose synthesis ran to its end. */
  ghost function Finished(s: State, t: nat): set<nat> {
    set id | 0 <= id < |s.records| && s.records[id].turn == t
          && (s.records[id].outcome == Synthesized || s.records[id].outcome == Errored)
  }

  /** How many sentences of turn t have been handed to the synthesizer. */
  function SubmittedOf(js: seq<Job>, t: nat): nat {
    if js == [] then 0
    else SubmittedOf(js[..|js| - 1], t) + (if js[|js| - 1].turn == t then 1 else 0)
  }

  lemma InterruptKeepsSilence(s: State, u: nat, t: nat, soon: set<nat>)
    requires Inv(s) && SilentUpTo(s, t, soon)
    ensures SilentUpTo(OnInterrupted(s, u), t, soon)
  {
    KeepKeeps(s.pending, u);
  }

  lemma SentenceKeepsSilence(s: State, u: nat, n: nat, t: nat, soon: set<nat>)
    requires SilentUpTo(s, t, soon) && !(u == t && t !in s.tokens)
    ensures SilentUpTo(OnSentence(s, u, n), t, soon)
  {
  }

  /** No step brings turn t back but the two that give it a fresh token; those always do. */
  lemma SilenceEndsExactlyAt(capacity: nat, s: State, l: Label, t: nat)
    requires Inv(s) && Enabled(capacity, s, l) && Silent(s, t)
    ensures Silent(Apply(capacity, s, l), t) <==> !Rearms(s, l, t)
  {
    if Rearms(s, l, t) {
      assert Apply(capacity, s, l).tokens[t] == s.nextToken;
    } else {
      SilenceKept(capacity, s, l, t, {});
    }
  }

  /** The steps that touch neither the tokens of the turns nor the queue of jobs. */
  lemma MoveKeepsSilence(capacity: nat, s: State, l: Label, t: nat, soon: set<nat>)
    requires Enabled(capacity, s, l) && SilentUpTo(s, t, soon)
    requires !l.LlmStarted? && !l.LlmSentence? && !l.LlmFinished? && !l.UserInterrupted? && !l.IoPops?
    ensures SilentUpTo(Apply(capacity, s, l), t, soon)
  {
    hide SilentUpTo, OnSentence, OnInterrupted;
    var s' := Apply(capacity, s, l);
    assert s'.tokens == s.tokens && s'.pending == s.pending && s.cancelled <= s'.cancelled;
    assert s'.io.Busy? && Unjudged(s'.io.phase) ==> s.io.Busy? && s'.io.job == s.io.job && Unjudged(s.io.phase);
    SilenceIsAbout(s, s', t, soon);
  }

  /** Silence is about the tokens, the queue, and an unjudged job only. */
  lemma SilenceIsAbout(s: State, s': State, t: nat, soon: set<nat>)
    requires SilentUpTo(s, t, soon) && s'.tokens == s.tokens && s'.pending == s.pending && s.cancelled <= s'.cancelled
    requires s'.io.Busy? && Unjudged(s'.io.phase) ==> s.io.Busy? && s'.io.job == s.io.job && Unjudged(s.io.phase)
    ensures SilentUpTo(s', t, soon)
  {
  }

  lemma PopKeepsSilence(capacity: nat, s: State, t: nat, soon: set<nat>)
    requires Enabled(capacity, s, IoPops) && SilentUpTo(s, t, soon)
    ensures SilentUpTo(Apply(capacity, s, IoPops), t, soon)
  {
    hide OnSentence, OnInterrupted;
    assert s.pending[0] in s.pending;
    assert forall j | j in s.pending[1..] :: j in s.pending;
  }

  lemma TokenStepKeepsSilence(capacity: nat, s: State, l: Label, t: nat, soon: set<nat>)
    requires Enabled(capacity, s, l) && SilentUpTo(s, t, soon) && l != LlmStarted(t)
    requires l.LlmStarted? || l.LlmFinished?
    ensures SilentUpTo(Apply(capacity, s, l), t, soon)
  {
    hide OnSentence, OnInterrupted;
  }

  lemma SilenceKept(capacity: nat, s: State, l: Label, t: nat, soon: set<nat>)
    requires Inv(s) && Enabled(capacity, s, l) && SilentUpTo(s, t, soon) && !Rearms(s, l, t)
    ensures SilentUpTo(Apply(capacity, s, l), t, soon)
  {
    hide Inv, OnSentence, OnInterrupted, SilentUpTo;
    match l
    case UserInterrupted(u) => InterruptKeepsSilence(s, u, t, soon);
    case LlmSentence(u, n) => SentenceKeepsSilence(s, u, n, t, soon);
    case IoPops => PopKeepsSilence(capacity, s, t, soon);
    case LlmStarted(_) | LlmFinished(_) => TokenStepKeepsSilence(capacity, s, l, t, soon);
    case _ => MoveKeepsSilence(capacity, s, l, t, soon);
  }

  /** The interrupt itself: everything of its turn is cancelled or on the list about to be cancelled. */
  lemma InterruptHushes(s: State, t: nat)
    requires Inv(s)
    ensures var s' := OnInterrupted(s, t);
      && t in s'.tokens
      && SilentUpTo(s', t, if s'.sub.Cancelling? then set k | k in s'.sub.left else {})
  {
    KeepKeeps(s.pending, t);
  }

  /** A silent turn: nothing more is submitted, nothing finishes, and only a checked chunk gets out. */
  ghost predicate NoMoreOf(before: State, after: State, t: nat) {
    && ChunksOf(after.log, t) + AlreadyChecked(after, t) <= ChunksOf(before.log, t) + AlreadyChecked(before, t)
    && SubmittedOf(after.submissions, t) == SubmittedOf(before.submissions, t)
    && Finished(after, t) == Finished(before, t)
  }

  lemma ChunksOfGrows(log: seq<Chunk>, c: Chunk, t: nat)
    ensures ChunksOf(log + [c], t) == ChunksOf(log, t) + (if c.turn == t then 1 else 0)
  {
    assert (log + [c])[..|log|] == log;
  }

  lemma SubmittedOfGrows(js: seq<Job>, j: Job, t: nat)
    ensures SubmittedOf(js + [j], t) == SubmittedOf(js, t) + (if j.turn == t then 1 else 0)
  {
    assert (js + [j])[..|js|] == js;
  }

  /** The steps that neither enqueue, nor submit, nor touch the records. */
  predicate Innocuous(l: Label) {
    match l
    case LlmSentence(_, _) | UserInterrupted(_) | IoChecks | AudioEnqueues | EosEnqueues | Judges => false
    case _ => true
  }

  lemma InnocuousAddsNothing(capacity: nat, s: State, l: Label, t: nat)
    requires Inv(s) && Enabled(capacity, s, l) && Silent(s, t) && Innocuous(l)
    ensures NoMoreOf(s, Apply(capacity, s, l), t)
  {
    hide OnSentence, OnInterrupted;
    var s' := Apply(capacity, s, l);
    assert s'.records == s.records && s'.log == s.log && s'.submissions == s.submissions;
    assert AlreadyChecked(s', t) <= AlreadyChecked(s, t);
  }

  lemma EnqueueAddsNothing(capacity: nat, s: State, l: Label, t: nat)
    requires Inv(s) && Enabled(capacity, s, l) && (l == AudioEnqueues || l == EosEnqueues)
    ensures NoMoreOf(s, Apply(capacity, s, l), t)
  {
    var s' := Apply(capacity, s, l);
    ChunksOfGrows(s.log, Chunk(s.io.job.turn, s.io.job.seqNo, s.io.job.id, l == EosEnqueues), t);
    assert s'.records == s.records && s'.submissions == s.submissions;
  }

  lemma SentenceAddsNothing(s: State, u: nat, n: nat, t: nat)
    ensures NoMoreOf(s, OnSentence(s, u, n), t)
  {
    var s' := OnSentence(s, u, n);
    assert forall i | 0 <= i < |s.records| :: s'.records[i] == s.records[i];
    assert s'.log == s.log && s'.submissions == s.submissions && s'.io == s.io;
  }

  lemma InterruptFinishesNothing(s: State, u: nat, t: nat)
    requires PendingOk(s)
    ensures Finished(OnInterrupted(s, u), t) == Finished(s, t)
  {
    InterruptRecords(s, u);
    hide PendingOk, MarkDropped, Keep, KeepShrinks, WithToken;
    var r, r' := s.records, OnInterrupted(s, u).records;
    assert forall i | 0 <= i < |r| ::
      && r'[i].turn == r[i].turn
      && (r'[i].outcome == Synthesized <==> r[i].outcome == Synthesized)
      && (r'[i].outcome == Errored <==> r[i].outcome == Errored);
  }

  lemma InterruptAddsNothing(s: State, u: nat, t: nat)
    requires PendingOk(s)
    ensures NoMoreOf(s, OnInterrupted(s, u), t)
  {
    InterruptFinishesNothing(s, u, t);
    hide Finished, PendingOk, MarkDropped, Keep, KeepShrinks, WithToken;
    var s' := OnInterrupted(s, u);
    assert s'.log == s.log && s'.submissions == s.submissions && s'.io == s.io;
  }

  lemma IoOkOf(s: State)
    requires JobsOk(s)
    ensures IoOk(s)
  {
  }

  lemma JudgementAddsNothing(capacity: nat, s: State, l: Label, t: nat)
    requires Inv(s) && Enabled(capacity, s, l) && Silent(s, t) && (l == IoChecks || l == Judges)
    ensures NoMoreOf(s, Apply(capacity, s, l), t)
  {
    hide JobsOk, CountsOk, LogOk, CancelsJustified, OnSentence, OnInterrupted;
    assert IoOk(s) by {
      IoOkOf(s);
    }
    if l == Judges {
      JudgedSilently(s, if s.io.job.token in s.cancelled then Cancelled else if s.io.failed then Errored else Synthesized, t);
    } else if s.io.job.token in s.cancelled {
      JudgedSilently(s, Cancelled, t);
    } else {
      SubmittedOfGrows(s.submissions, s.io.job, t);
      assert Apply(capacity, s, l).records == s.records;
    }
  }

  lemma SilentStepAddsNothing(capacity: nat, s: State, l: Label, t: nat)
    requires Inv(s) && Enabled(capacity, s, l) && Silent(s, t)
    ensures NoMoreOf(s, Apply(capacity, s, l), t)
  {
    if l == AudioEnqueues || l == EosEnqueues {
      EnqueueAddsNothing(capacity, s, l, t);
    } else if l.LlmSentence? {
      SentenceAddsNothing(s, l.turn, l.seqNo, t);
    } else if l.UserInterrupted? {
      InterruptAddsNothing(s, l.turn, t);
    } else if l == IoChecks || l == Judges {
      JudgementAddsNothing(capacity, s, l, t);
    } else {
      InnocuousAddsNothing(capacity, s, l, t);
    }
  }

  lemma JudgedSilently(s: State, verdict: Outcome, t: nat)
    requires Inv(s) && s.io.Busy? && Unjudged(s.io.phase) && s.io.job.id < |s.records|
    requires s.io.job.turn == t ==> verdict == Cancelled
    ensures Finished(Judge(s, verdict), t) == Finished(s, t)
  {
  }

  /** No LlmStarted(t), and no LlmSentence(t) after an LlmFinished(t). */
  ghost predicate Quiet(schedule: seq<Label>, t: nat) {
    forall i | 0 <= i < |schedule| ::
      && schedule[i] != LlmStarted(t)
      && (schedule[i].LlmSentence? && schedule[i].turn == t ==> LlmFinished(t) !in schedule[..i])
  }

  lemma RunSplits(capacity: nat, s: State, schedule: seq<Label>, s': State) returns (before: State, l: Label)
    requires schedule != [] && Run(capacity, s, schedule) == Some(s')
    ensures l == schedule[|schedule| - 1] && Run(capacity, s, schedule[..|schedule| - 1]) == Some(before)
    ensures Enabled(capacity, before, l) && s' == Apply(capacity, before, l)
  {
    before, l := Run(capacity, s, schedule[..|schedule| - 1]).value, schedule[|schedule| - 1];
  }

  lemma QuietPrefix(schedule: seq<Label>, t: nat)
    requires schedule != [] && Quiet(schedule, t)
    ensures Quiet(schedule[..|schedule| - 1], t)
  {
    var front := schedule[..|schedule| - 1];
    assert forall i | 0 <= i < |front| :: front[..i] == schedule[..i] && front[i] == schedule[i];
  }

  /** Over a quiet schedule: the token entry stays until LlmFinished, and silence lasts. */
  lemma {:induction false} SilenceLasts(capacity: nat, s: State, schedule: seq<Label>, t: nat, s': State, soon: set<nat>)
    requires Inv(s) && SilentUpTo(s, t, soon) && t in s.tokens && Quiet(schedule, t)
    requires Run(capacity, s, schedule) == Some(s')
    ensures Inv(s') && SilentUpTo(s', t, soon)
    ensures LlmFinished(t) !in schedule ==> t in s'.tokens
    ensures soon == {} ==> NoMoreOf(s, s', t)
  {
    if schedule != [] {
      var front := schedule[..|schedule| - 1];
      var before, l := RunSplits(capacity, s, schedule, s');
      QuietPrefix(schedule, t);
      SilenceLasts(capacity, s, front, t, before, soon);
      assert l.LlmSentence? && l.turn == t ==> LlmFinished(t) !in front;
      assert l in schedule && forall k | k in front :: k in schedule;
      SilentStep(capacity, before, l, t, soon);
    }
  }

  lemma SilentStep(capacity: nat, s: State, l: Label, t: nat, soon: set<nat>)
    requires Inv(s) && Enabled(capacity, s, l) && SilentUpTo(s, t, soon) && !Rearms(s, l, t)
    ensures Inv(Apply(capacity, s, l)) && SilentUpTo(Apply(capacity, s, l), t, soon)
    ensures t in s.tokens && l != LlmFinished(t) ==> t in Apply(capacity, s, l).tokens
    ensures soon == {} ==> NoMoreOf(s, Apply(capacity, s, l), t)
  {
    StepKeepsInv(capacity, s, l);
    SilenceKept(capacity, s, l, t, soon);
    if soon == {} {
      SilentStepAddsNothing(capacity, s, l, t);
    }
    if t in s.tokens && l != LlmFinished(t) {
      TokenEntryStays(capacity, s, l, t);
    }
  }

  lemma TokenEntryStays(capacity: nat, s: State, l: Label, t: nat)
    requires Enabled(capacity, s, l) && t in s.tokens && l != LlmFinished(t)
    ensures t in Apply(capacity, s, l).tokens
  {
  }

  predicate FromBus(l: Label) {
    l.LlmStarted? || l.LlmSentence? || l.LlmFinished? || l.UserInterrupted?
  }

  /** While the interrupt's handler runs, its list of tokens only moves into the cancelled ones. */
  lemma {:induction false} CancelsArrive(capacity: nat, s: State, window: seq<Label>, s': State, soon: set<nat>)
    requires Run(capacity, s, window) == Some(s') && forall l | l in window :: !FromBus(l)
    requires soon <= s.cancelled + (if s.sub.Cancelling? then set k | k in s.sub.left else {})
    ensures soon <= s'.cancelled + (if s'.sub.Cancelling? then set k | k in s'.sub.left else {})
  {
    hide OnSentence, OnInterrupted;
    if window != [] {
      var before, l := RunSplits(capacity, s, window, s');
      assert forall k | k in window[..|window| - 1] :: k in window;
      CancelsArrive(capacity, s, window[..|window| - 1], before, soon);
      assert l in window;
      if l.CancelNext? && before.sub.left != [] {
        assert before.sub.left == [before.sub.left[0]] + before.sub.left[1..];
      }
    }
  }

  /**
   The barge-in guarantee. A turn is interrupted in any reachable state `s`; `window` is the
   rest of the handler's run up to its last cancel, whatever the I/O thread does meanwhile;
   `later` is anything at all that gives the turn no new start. Then at most one more chunk
   of the turn gets into the playback queue, and only if its check had already passed; no
   further sentence of it is submitted, and none finishes.
   */
  lemma InterruptSilences(capacity: nat, s: State, t: nat, window: seq<Label>, s2: State, later: seq<Label>, s3: State)
    requires Inv(s) && Enabled(capacity, s, UserInterrupted(t))
    requires Run(capacity, Apply(capacity, s, UserInterrupted(t)), window) == Some(s2) && !s2.sub.Cancelling?
    requires forall l | l in window :: !FromBus(l)
    requires Run(capacity, s2, later) == Some(s3) && Quiet(later, t)
    ensures ChunksOf(s3.log, t) <= ChunksOf(s2.log, t) + AlreadyChecked(s2, t) <= ChunksOf(s2.log, t) + 1
    ensures SubmittedOf(s3.submissions, t) == SubmittedOf(s2.submissions, t)
    ensures Finished(s3, t) == Finished(s2, t)
    ensures Silent(s3, t)
  {
    hide Inv, OnInterrupted, OnSentence;
    var s1 := Apply(capacity, s, UserInterrupted(t));
    var soon := if s1.sub.Cancelling? then set k | k in s1.sub.left else {};
    StepKeepsInv(capacity, s, UserInterrupted(t));
    InterruptHushes(s, t);
    assert forall i | 0 <= i < |window| :: window[i] in window;
    SilenceLasts(capacity, s1, window, t, s2, soon);
    CancelsArrive(capacity, s1, window, s2, soon);
    assert Silent(s2, t);
    assert LlmFinished(t) !in window;
    SilenceLasts(capacity, s2, later, t, s3, {});
  }
}