/**
 Which sentences of the bridge end as cancelled, and which are closed by their last chunk:
 exactly those whose token was cancelled or that an interrupt found waiting.
 */
module TtsBridgeCancelled {
  import opened Wrappers
  import opened TtsBridges
  import opened TtsBridgeTheorems

  /** Step l is an interrupt that finds sentence `id` pending. */
  predicate Drops(s: State, l: Label, id: nat) {
    l.UserInterrupted? && exists j | j in s.pending :: j.id == id && j.turn == l.turn
  }

  /** Some interrupt of the schedule found sentence `id` pending. */
  ghost predicate Dropped(capacity: nat, schedule: seq<Label>, id: nat) {
    exists i: nat :: DroppedAt(capacity, schedule, i, id)
  }

  ghost predicate DroppedAt(capacity: nat, schedule: seq<Label>, i: nat, id: nat) {
    && i < |schedule| && Run(capacity, INITIAL, schedule[..i]).Some?
    && Drops(Run(capacity, INITIAL, schedule[..i]).value, schedule[i], id)
  }

  // ----- how outcomes change -----

  /** What one step may do to the outcomes and the cancelled tokens. */
  ghost predicate OutcomesMove(s: State, l: Label, s': State) {
    && |s.records| <= |s'.records| && s.cancelled <= s'.cancelled
    && (forall id: nat | id < |s.records| ::
          && s'.records[id].token == s.records[id].token && s'.records[id].turn == s.records[id].turn
          && (s.records[id].outcome != Open ==> s'.records[id].outcome == s.records[id].outcome))
    && (forall id: nat | Drops(s, l, id) :: id < |s.records| && s'.records[id].outcome == Cancelled)
    && (forall id: nat | id < |s'.records| && s'.records[id].outcome == Cancelled ::
          || (id < |s.records| && s.records[id].outcome == Cancelled)
          || Drops(s, l, id) || s'.records[id].token in s'.cancelled)
  }

  lemma SentenceMoves(s: State, t: nat, n: nat)
    ensures OutcomesMove(s, LlmSentence(t, n), OnSentence(s, t, n))
  {
  }

  lemma InterruptMoves(s: State, t: nat)
    requires PendingOk(s)
    ensures OutcomesMove(s, UserInterrupted(t), OnInterrupted(s, t))
  {
    hide Keep, KeepShrinks, WithToken, MarkDropped;
    MarkMarks(s.records, s.pending, t);
  }

  lemma JudgeMoves(s: State, l: Label, verdict: Outcome)
    requires IoOk(s) && s.io.Busy? && Unjudged(s.io.phase) && !l.UserInterrupted?
    requires verdict == Cancelled ==> s.io.job.token in s.cancelled
    ensures OutcomesMove(s, l, Judge(s, verdict))
  {
  }

  lemma OthersMove(capacity: nat, s: State, l: Label)
    requires Enabled(capacity, s, l) && !l.LlmSentence? && !l.UserInterrupted? && !l.IoChecks? && !l.Judges?
    ensures OutcomesMove(s, l, Apply(capacity, s, l))
  {
    hide OnSentence, OnInterrupted;
    assert Apply(capacity, s, l).records == s.records;
  }

  lemma StepMoves(capacity: nat, s: State, l: Label)
    requires Inv(s) && Enabled(capacity, s, l)
    ensures OutcomesMove(s, l, Apply(capacity, s, l))
  {
    hide OutcomesMove, OnSentence, OnInterrupted, PendingOk, TokensOk, CountsOk, LogOk, CancelsJustified;
    match l
    case LlmSentence(t, n) => SentenceMoves(s, t, n);
    case UserInterrupted(t) => InterruptMoves(s, t);
    case IoChecks =>
      if s.io.job.token in s.cancelled {
        JudgeMoves(s, l, Cancelled);
      } else {
        SubmitMoves(s);
      }
    case Judges =>
      JudgeMoves(s, l, if s.io.job.token in s.cancelled then Cancelled else if s.io.failed then Errored else Synthesized);
    case _ => OthersMove(capacity, s, l);
  }

  lemma SubmitMoves(s: State)
    requires s.io.Busy?
    ensures OutcomesMove(s, IoChecks, Go(s, Submitting).(submissions := s.submissions + [s.io.job]))
  {
  }

  // ----- every schedule -----

  /** Why each cancelled sentence is, and what is closed. */
  ghost predicate Explained(capacity: nat, schedule: seq<Label>, s: State) {
    && (forall id: nat | Dropped(capacity, schedule, id) :: id < |s.records| && s.records[id].outcome == Cancelled)
    && (forall id: nat | id < |s.records| && s.records[id].outcome == Cancelled ::
          Dropped(capacity, schedule, id) || s.records[id].token in s.cancelled)
  }

  lemma DroppedGrows(capacity: nat, front: seq<Label>, l: Label, s: State, id: nat)
    requires Run(capacity, INITIAL, front) == Some(s)
    ensures Dropped(capacity, front + [l], id) <==> Dropped(capacity, front, id) || Drops(s, l, id)
  {
    hide Run, Drops;
    var all := front + [l];
    assert all[..|front|] == front;
    if Dropped(capacity, all, id) {
      var i: nat :| DroppedAt(capacity, all, i, id);
      if i < |front| {
        assert all[..i] == front[..i];
        assert DroppedAt(capacity, front, i, id);
      }
    }
    if Dropped(capacity, front, id) {
      var i: nat :| DroppedAt(capacity, front, i, id);
      assert all[..i] == front[..i];
      assert DroppedAt(capacity, all, i, id);
    }
    if Drops(s, l, id) {
      assert DroppedAt(capacity, all, |front|, id);
    }
  }

  lemma ExplainedGrows(capacity: nat, front: seq<Label>, l: Label, s: State, s': State)
    requires Run(capacity, INITIAL, front) == Some(s)
    requires Explained(capacity, front, s) && OutcomesMove(s, l, s')
    ensures Explained(capacity, front + [l], s')
  {
    hide Dropped, Drops, Run;
    forall id: nat
      ensures Dropped(capacity, front + [l], id) <==> Dropped(capacity, front, id) || Drops(s, l, id)
    {
      DroppedGrows(capacity, front, l, s, id);
    }
  }

  lemma NothingToExplain(capacity: nat, s: State)
    requires Run(capacity, INITIAL, []) == Some(s)
    ensures Explained(capacity, [], s) && SoundedAreCancelledByToken(s)
  {
  }

  lemma {:induction false} EverythingIsExplained(capacity: nat, schedule: seq<Label>, s: State)
    requires Run(capacity, INITIAL, schedule) == Some(s)
    ensures Explained(capacity, schedule, s)
  {
    hide *;
    if schedule == [] {
      NothingToExplain(capacity, s);
    } else {
      var before, l := RunSplits(capacity, INITIAL, schedule, s);
      var front := schedule[..|schedule| - 1];
      EverythingIsExplained(capacity, front, before);
      EveryScheduleKeepsInv(capacity, front);
      StepMoves(capacity, before, l);
      assert schedule == front + [l];
      ExplainedGrows(capacity, front, l, before, s);
    }
  }

  /**
   Over every schedule, a sentence whose token is never cancelled ends as cancelled if and
   only if an interrupt of its turn found it waiting in the queue.
   */
  lemma LiveSentenceIsCancelledExactlyWhen(capacity: nat, schedule: seq<Label>, s: State, id: nat)
    requires Run(capacity, INITIAL, schedule) == Some(s) && id < |s.records| && s.records[id].token !in s.cancelled
    ensures s.records[id].outcome == Cancelled <==> Dropped(capacity, schedule, id)
  {
    EverythingIsExplained(capacity, schedule, s);
  }

  // ----- what is closed -----

  /** A sentence that has sounded is cancelled only by its token. */
  ghost predicate SoundedAreCancelledByToken(s: State) {
    forall c | c in s.log && c.id < |s.records| && s.records[c.id].outcome == Cancelled ::
      s.records[c.id].token in s.cancelled
  }

  lemma StepKeepsSounded(capacity: nat, s: State, l: Label)
    requires Inv(s) && Enabled(capacity, s, l) && SoundedAreCancelledByToken(s)
    ensures SoundedAreCancelledByToken(Apply(capacity, s, l))
  {
    StepMoves(capacity, s, l);
    NewChunks(capacity, s, l);
    var s' := Apply(capacity, s, l);
    hide Apply, EosPresent, LogSorted, CountsOk, TokensOk, CancelsJustified;
    forall c | c in s'.log && c.id < |s'.records| && s'.records[c.id].outcome == Cancelled
      ensures s'.records[c.id].token in s'.cancelled
    {
      if c in s.log {
        assert !Drops(s, l, c.id);
      }
    }
  }

  /** A new chunk is one of the job at work, which is not judged yet. */
  lemma NewChunks(capacity: nat, s: State, l: Label)
    requires Enabled(capacity, s, l)
    ensures var s' := Apply(capacity, s, l);
      forall c | c in s'.log && c !in s.log ::
        s.io.Busy? && c.id == s.io.job.id && Unjudged(s.io.phase) && s'.records == s.records
  {
    hide OnSentence, OnInterrupted, MarkDropped;
    match l
    case LlmSentence(t, n) => SentenceLeavesLog(s, t, n);
    case UserInterrupted(t) => InterruptLeavesLog(s, t);
    case AudioEnqueues =>
    case EosEnqueues =>
    case _ => assert Apply(capacity, s, l).log == s.log;
  }

  lemma SentenceLeavesLog(s: State, t: nat, n: nat)
    ensures OnSentence(s, t, n).log == s.log
  {
  }

  lemma InterruptLeavesLog(s: State, t: nat)
    requires Known(s.pending, s.records)
    ensures OnInterrupted(s, t).log == s.log
  {
  }

  lemma {:induction false} SoundedSchedule(capacity: nat, schedule: seq<Label>, s: State)
    requires Run(capacity, INITIAL, schedule) == Some(s)
    ensures SoundedAreCancelledByToken(s)
  {
    hide *;
    if schedule == [] {
      NothingToExplain(capacity, s);
    } else {
      var before, l := RunSplits(capacity, INITIAL, schedule, s);
      SoundedSchedule(capacity, schedule[..|schedule| - 1], before);
      EveryScheduleKeepsInv(capacity, schedule[..|schedule| - 1]);
      StepKeepsSounded(capacity, before, l);
    }
  }

  /**
   Over every schedule, a settled sentence whose token is never cancelled is closed by
   exactly one end-of-sentence chunk, its last, if and only if no interrupt dropped it.
   */
  lemma LiveSentenceIsClosedExactlyWhen(capacity: nat, schedule: seq<Label>, s: State, id: nat)
    requires Run(capacity, INITIAL, schedule) == Some(s) && id < |s.records|
    requires s.records[id].token !in s.cancelled && s.records[id].outcome != Open
    ensures ClosedOnce(s.log, id) <==> !Dropped(capacity, schedule, id)
    ensures ClosedOnce(s.log, id) <==> s.records[id].outcome != Cancelled
  {
    LiveSentenceIsCancelledExactlyWhen(capacity, schedule, s, id);
    ChunksComeInSentenceOrder(capacity, schedule, s);
    SoundedSchedule(capacity, schedule, s);
    hide Run, Dropped, LogSorted;
    if ClosedOnce(s.log, id) {
      var i :| ClosesAt(s.log, id, i);
      assert s.log[i] in s.log && s.log[i].id == id;
    }
  }

  lemma RunOnce(capacity: nat, front: seq<Label>, l: Label, s: State)
    requires Run(capacity, INITIAL, front) == Some(s) && Enabled(capacity, s, l)
    ensures Run(capacity, INITIAL, front + [l]) == Some(Apply(capacity, s, l))
  {
    hide Apply, Enabled;
    assert (front + [l])[..|front|] == front;
  }

  const WAITING := Job(1, 0, 0, 0)

  /** One sentence is waiting, and the LLM's stream of its turn is over. */
  const ENDED := INITIAL.(nextToken := 1, pending := [WAITING], records := [Record(1, 0, 0, Open)])

  lemma SentenceThenEnd()
    ensures Run(0, INITIAL, [LlmSentence(1, 0), LlmFinished(1)]) == Some(ENDED)
  {
    var s1 := ENDED.(tokens := map[1 := 0]);
    assert OnSentence(INITIAL, 1, 0) == s1;
    RunOnce(0, [], LlmSentence(1, 0), INITIAL);
    assert [] + [LlmSentence(1, 0)] == [LlmSentence(1, 0)];
    assert s1.tokens - {1} == map[];
    RunOnce(0, [LlmSentence(1, 0)], LlmFinished(1), s1);
    assert [LlmSentence(1, 0)] + [LlmFinished(1)] == [LlmSentence(1, 0), LlmFinished(1)];
  }

  lemma ThenInterrupted()
    ensures Enabled(0, ENDED, UserInterrupted(1))
    ensures var s := Apply(0, ENDED, UserInterrupted(1));
      s.records == [Record(1, 0, 0, Cancelled)] && s.cancelled == {1} && s.log == []
  {
    assert [WAITING][..0] == [];
    assert Keep([WAITING], 1) == [];
    assert MarkDropped(ENDED.records, [WAITING], 1) == [Record(1, 0, 0, Cancelled)];
  }

  /** The failing case: an interrupt behind the end of the LLM's stream. */
  lemma InterruptBehindTheEnd()
    ensures var r := Run(0, INITIAL, [LlmSentence(1, 0), LlmFinished(1), UserInterrupted(1)]);
      && r.Some? && |r.value.records| == 1
      && r.value.records[0].outcome == Cancelled && r.value.records[0].token !in r.value.cancelled
      && !ClosedOnce(r.value.log, 0)
  {
    hide Run, Apply, Enabled;
    var front := [LlmSentence(1, 0), LlmFinished(1)];
    SentenceThenEnd();
    ThenInterrupted();
    RunOnce(0, front, UserInterrupted(1), ENDED);
    assert front + [UserInterrupted(1)] == [LlmSentence(1, 0), LlmFinished(1), UserInterrupted(1)];
  }
}
