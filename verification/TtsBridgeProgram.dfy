/**
 The bridge's fields and the code that runs under its mutex, in the program's own form.
 Each method is exactly one step of the transition system (JudgeAndCount is two), so what
 TtsBridgeTheorems proves of every schedule holds of every interleaving of these methods.
 */
module TtsBridgeProgram {
  import opened Wrappers
  import opened TtsBridges

  /** How the job that is closing will be judged. */
  function VerdictOn(s: State): Outcome
    requires s.io.Busy?
  {
    if s.io.job.token in s.cancelled then Cancelled else if s.io.failed then Errored else Synthesized
  }

  /** Judging and counting, as one. */
  lemma JudgesThenCounts(s: State)
    requires InPhase(s, Closing) && s.io.job.id < |s.records|
    ensures Enabled(0, s, Judges) && Enabled(0, Apply(0, s, Judges), Counts)
    ensures var s1 := Go(Judge(s, VerdictOn(s)), Counted);
      Apply(0, Apply(0, s, Judges), Counts) == match VerdictOn(s)
        case Synthesized => s1.(synthesizedCount := s.synthesizedCount + 1)
        case Errored => s1.(erroredCount := s.erroredCount + 1)
        case _ => s1.(cancelledCount := s.cancelledCount + 1)
  {
    hide OnSentence, OnInterrupted;
    assert Apply(0, s, Judges) == Judge(s, VerdictOn(s));
  }

  class TtsBridge {
    var tokens: map<nat, nat>      // a turn's token; tokens are numbered as they are made
    var nextToken: nat
    var cancelled: set<nat>        // the flags behind the tokens
    var pending: seq<Job>
    var inFlight: Option<nat>
    var stopping: bool
    var synthesizedCount: nat
    var cancelledCount: nat
    var erroredCount: nat
    var handled: nat               // numbers the jobs, for the history
    ghost var rest: State          // the threads' positions, the playback queue and the history

    ghost function Now(): State
      reads this
    {
      rest.(tokens := tokens, nextToken := nextToken, cancelled := cancelled, pending := pending, inFlight := inFlight,
            stopping := stopping, synthesizedCount := synthesizedCount, cancelledCount := cancelledCount,
            erroredCount := erroredCount)
    }

    ghost predicate Valid()
      reads this
    {
      handled == |rest.records|
    }

    constructor ()
      ensures Now() == INITIAL && Valid()
    {
      tokens, nextToken, cancelled, pending, inFlight, stopping := map[], 0, {}, [], None, false;
      synthesizedCount, cancelledCount, erroredCount, handled := 0, 0, 0, 0;
      rest := INITIAL;
    }

    /** A fresh token: make_shared<CancellationToken>(). */
    method MakeToken() returns (token: nat)
      modifies this`nextToken
      ensures token == old(nextToken) && nextToken == token + 1
    {
      token := nextToken;
      nextToken := nextToken + 1;
    }

    method OnLlmStarted(turn: nat)
      requires Valid() && rest.sub.Ready?
      modifies this
      ensures Valid() && Now() == Apply(0, old(Now()), LlmStarted(turn))
    {
      var token := MakeToken();
      tokens := tokens[turn := token];
    }

    /** The token of a turn, minted if there is none. */
    method TokenFor(turn: nat) returns (token: nat)
      modifies this`tokens, this`nextToken
      ensures Now() == WithToken(old(Now()), turn) && token == tokens[turn]
    {
      if turn !in tokens {
        token := MakeToken();
        tokens := tokens[turn := token];
        return;
      }
      token := tokens[turn];
    }

    method OnLlmSentence(turn: nat, seqNo: nat)
      requires Valid() && rest.sub.Ready?
      modifies this
      ensures Valid() && Now() == Apply(0, old(Now()), LlmSentence(turn, seqNo))
    {
      var token := TokenFor(turn);
      handled := handled + 1;
      if token in cancelled {
        cancelledCount := cancelledCount + 1;
        rest := rest.(records := rest.records + [Record(turn, seqNo, token, Cancelled)]);
        return;
      }
      pending := pending + [Job(turn, seqNo, token, handled - 1)];
      rest := rest.(records := rest.records + [Record(turn, seqNo, token, Open)]);
    }

    method OnLlmFinished(turn: nat)
      requires Valid() && rest.sub.Ready?
      modifies this
      ensures Valid() && Now() == Apply(0, old(Now()), LlmFinished(turn))
    {
      tokens := tokens - {turn};
    }

    /** The turn's own token, or a pre-cancelled one for a turn that has none yet. */
    method TurnTokenToCancel(turn: nat) returns (toCancel: seq<nat>)
      modifies this`tokens, this`nextToken, this`cancelled
      ensures Now() == if turn in old(tokens) then old(Now())
                       else WithToken(old(Now()), turn).(cancelled := old(cancelled) + {old(nextToken)})
      ensures toCancel == if turn in old(tokens) then [old(tokens)[turn]] else []
    {
      if turn in tokens {
        return [tokens[turn]];
      }
      var token := MakeToken();
      cancelled := cancelled + {token};
      tokens := tokens[turn := token];
      return [];
    }

    /** The part of on_user_interrupted under the mutex; `toCancel` is what it cancels afterwards. */
    method OnUserInterrupted(turn: nat) returns (toCancel: seq<nat>)
      requires Valid() && Enabled(0, Now(), UserInterrupted(turn))
      modifies this
      ensures Valid() && Now() == Apply(0, old(Now()), UserInterrupted(turn))
      ensures toCancel == if rest.sub.Cancelling? then rest.sub.left else []
    {
      hide Keep, KeepShrinks, MarkDropped, OnSentence;
      ghost var before := Now();
      toCancel := TurnTokenToCancel(turn);
      ghost var own := toCancel;
      DropPending(turn);
      if inFlight.Some? {
        toCancel := toCancel + [inFlight.value];
      }
      assert toCancel == own + (if before.inFlight.Some? then [before.inFlight.value] else []);
      rest := rest.(records := MarkDropped(before.records, before.pending, turn),
                    sub := if toCancel == [] then Clearing else Cancelling(turn, toCancel),
                    interrupted := rest.interrupted + {turn});
    }

    /** The loop that rebuilds the pending queue without the turn's jobs, counting them. */
    method DropPending(turn: nat)
      modifies this`pending, this`cancelledCount
      ensures pending == Keep(old(pending), turn)
      ensures cancelledCount == old(cancelledCount) + KeepShrinks(old(pending), turn)
    {
      var kept: seq<Job> := [];
      for i := 0 to |pending|
        invariant pending == old(pending)
        invariant kept == Keep(pending[..i], turn)
        invariant cancelledCount == old(cancelledCount) + KeepShrinks(pending[..i], turn)
      {
        assert pending[..i + 1][..i] == pending[..i];
        if pending[i].turn == turn {
          cancelledCount := cancelledCount + 1;
        } else {
          kept := kept + [pending[i]];
        }
      }
      assert pending[..|pending|] == pending;
      pending := kept;
    }

    /** The head of io_loop: the front job is taken and becomes the one in flight. */
    method IoPops() returns (job: Job)
      requires Valid() && rest.io.Waiting? && pending != []
      modifies this
      ensures Valid() && Now() == Apply(0, old(Now()), Label.IoPops)
      ensures job == old(pending[0])
    {
      job := pending[0];
      pending := pending[1..];
      inFlight := Some(job.token);
      rest := rest.(io := Busy(job, JustPopped, false));
    }

    /** The last check of run_one, with its counter: the three ways a job can end. */
    method JudgeAndCount(job: Job, gotError: bool) returns (verdict: Outcome)
      requires Valid() && rest.io == Busy(job, Closing, gotError) && job.id < |rest.records|
      modifies this
      ensures Valid()
      ensures verdict == if job.token in old(cancelled) then Cancelled
                         else if gotError then Errored else Synthesized
      ensures Now() == Apply(0, Apply(0, old(Now()), Judges), Counts)
    {
      hide Apply;
      JudgesThenCounts(Now());
      ghost var judged := Judge(Now(), VerdictOn(Now()));
      if job.token in cancelled {
        cancelledCount := cancelledCount + 1;
        verdict := Cancelled;
      } else if gotError {
        erroredCount := erroredCount + 1;
        verdict := Errored;
      } else {
        synthesizedCount := synthesizedCount + 1;
        verdict := Synthesized;
      }
      rest := Go(judged, Counted);
    }

    /** The tail of io_loop. */
    method IoReleases()
      requires Valid() && InPhase(Now(), Counted)
      modifies this
      ensures Valid() && Now() == Apply(0, old(Now()), Label.IoReleases)
    {
      inFlight := None;
      rest := rest.(io := Waiting);
    }

    /** The part of stop that holds the mutex. */
    method StopLocks()
      requires Valid() && rest.sub.Stopped? && !stopping
      modifies this
      ensures Valid() && Now() == Apply(0, old(Now()), Label.StopLocks)
    {
      if inFlight.Some? {
        cancelled := cancelled + {inFlight.value};
      }
      stopping := true;
    }
  }
}
