/**
 * What the protocol leaves open, as exact conditions over every run: when the attempt budget is
 * exceeded, when a cancel request is dropped, and when a transient failure becomes a dead letter.
 * `Announcements` and `Deliveries` settle the other two questions of this kind, and `Witness`
 * shows that all of these cases are reached.
 */
module Corners {
  import opened Common
  import opened Jobs
  import opened Database
  import opened DatabaseInvariant
  import opened Protocol
  import opened ProtocolInvariant
  import opened WorkerSafety
  import opened Runs
  import opened RowHistory
  import opened Announcements
  import opened WorkerGuarantees
  import opened Witness

  // ---- The attempt budget -----------------------------------------------------------------------------

  /** Waiting jobs have budget left, for every run. */
  lemma {:induction false} WaitingWithinBudget(cfg: Config, run: seq<Action>, j: nat)
    requires cfg.maxAttempts > 0 && j < |Exec(cfg, START, run).db.jobs|
    requires Exec(cfg, START, run).db.jobs[j].status.Waiting()
    ensures Exec(cfg, START, run).db.jobs[j].attempts < cfg.maxAttempts
    decreases |run|
  {
    hide Apply, Exec, Inv;
    if run == [] {
      ExecNone(cfg);
    } else {
      var before, a := run[..|run| - 1], run[|run| - 1];
      var s := Exec(cfg, START, before);
      ExecLast(cfg, run);
      Reachable(cfg, before);
      Reachable(cfg, run);
      PendingIsFresh(cfg, Exec(cfg, START, run), j);
      if j >= |s.db.jobs| {
        NewJobsPending(cfg, s, a, j);
      } else {
        ApplyMoves(cfg, s, a);
        assert RowMoved(cfg, s.db, Exec(cfg, START, run).db, j);
        if s.db.jobs[j].status.Waiting() {
          WaitingWithinBudget(cfg, before, j);
        }
      }
    }
  }

  lemma PendingIsFresh(cfg: Config, s: State, j: nat)
    requires Inv(cfg, s) && j < |s.db.jobs|
    ensures s.db.jobs[j].status.Pending? ==> s.db.jobs[j].attempts == 0
  {
    assert RowOk(s.db.now, s.db.made, s.db.blobs, j, s.db.jobs[j]);
  }

  /**
   * The retry and the reaper look at the budget, the claim does not: after any run, a claim
   * exceeds it exactly if it takes over a PROCESSING job that has none left.
   */
  lemma ClaimExceedsBudgetIff(cfg: Config, run: seq<Action>, j: nat, w: nat)
    requires cfg.maxAttempts > 0
    requires var (db', claim) := ClaimJob(Exec(cfg, START, run).db, j, w); claim.Granted?
    ensures var db := Exec(cfg, START, run).db; var db' := ClaimJob(db, j, w).0;
            && j < |db.jobs| && j < |db'.jobs|
            && (db'.jobs[j].attempts > cfg.maxAttempts <==>
                  db.jobs[j].status.Processing? && db.jobs[j].attempts >= cfg.maxAttempts)
  {
    hide Exec;
    var db := Exec(cfg, START, run).db;
    if db.jobs[j].status.Waiting() {
      WaitingWithinBudget(cfg, run, j);
    }
  }

  // ---- Cancellation against claiming ------------------------------------------------------------------

  /**
   * A request that saw the job waiting after `run` and updates it after `run + more` takes effect
   * exactly if the job is waiting again or still, or flagged by somebody else; and it is dropped
   * without a trace exactly if the job was claimed meanwhile and neither is the case.
   */
  lemma RequestDroppedIffClaimed(cfg: Config, run: seq<Action>, more: seq<Action>, j: nat)
    requires j < |Exec(cfg, START, run).db.jobs| && Exec(cfg, START, run).db.jobs[j].status.Waiting()
    ensures var row := Exec(cfg, START, run).db.jobs[j]; var db' := Exec(cfg, START, run + more).db;
            && j < |db'.jobs|
            && (CancelWaiting(db', j).jobs[j].cancelRequested <==>
                  db'.jobs[j].status.Waiting() || db'.jobs[j].cancelRequested)
            && (CancelWaiting(db', j) == db' && !db'.jobs[j].cancelRequested <==>
                  && db'.jobs[j].generation > row.generation
                  && !db'.jobs[j].status.Waiting() && !db'.jobs[j].cancelRequested)
  {
    hide Exec, Apply, Inv;
    Reachable(cfg, run);
    ExecSplit(cfg, START, run, more);
    RowsLater(cfg, Exec(cfg, START, run), more);
    var db' := Exec(cfg, START, run + more).db;
    assert RowLater(Exec(cfg, START, run).db.jobs[j], db'.jobs[j]);
    assert CancelWaiting(db', j).jobs[j].cancelRequested <==> db'.jobs[j].status.Waiting() || db'.jobs[j].cancelRequested;
  }

  // ---- Transient failures -----------------------------------------------------------------------------

  /** A worker that gives up after a transient failure has no budget left, or a cancelled job, or no claim. */
  predicate SpentOrFlagged(cfg: Config, db: Db, wk: Worker) {
    wk.pc == AtFail(true) && Fence(db, wk.job, wk.generation) ==>
      wk.attempts >= cfg.maxAttempts || db.jobs[wk.job].cancelRequested
  }

  lemma GivingUp(cfg: Config, s: State, a: Action, w: nat)
    requires Inv(cfg, s) && w < |s.workers| && ActsAs(a, w) && s.workers[w].pc != AtFail(true)
    requires w < |Apply(cfg, s, a).workers|
    ensures SpentOrFlagged(cfg, Apply(cfg, s, a).db, Apply(cfg, s, a).workers[w])
  {
    hide WorkerStep, WorkerRaise, Consistent, TicketsOk, EnvelopesOk, SweepsOk, LapsedOk, SubmitsOk, QuotaOk;
    assert WorkerOk(s.db, w, s.workers[w]);
    if a.AWorker? {
      StepGivesUp(cfg, s, w, a.oracle);
    } else if a.ARaise? {
      RaiseGivesUp(s, w, a.kind);
    }
  }

  lemma RaiseGivesUp(s: State, w: nat, kind: ErrorKind)
    requires w < |s.workers| && s.workers[w].pc != AtFail(true)
    ensures WorkerRaise(s, w, kind).workers[w].pc != AtFail(true)
  {
  }

  lemma StepGivesUp(cfg: Config, s: State, w: nat, o: Oracle)
    requires w < |s.workers| && WorkerOk(s.db, w, s.workers[w]) && s.workers[w].pc != AtFail(true)
    ensures SpentOrFlagged(cfg, WorkerStep(cfg, s, w, o).db, WorkerStep(cfg, s, w, o).workers[w])
  {
    hide ProgressStep, CheckStep, OutputStep, ClaimJob, TerminalTransition;
    QuietGivesNothingUp(s, w, o);
    OutputGivesNothingUp(s, w);
  }

  lemma QuietGivesNothingUp(s: State, w: nat, o: Oracle)
    requires w < |s.workers| && s.workers[w].pc != AtFail(true)
    ensures ProgressStep(s, w, o).workers[w].pc != AtFail(true) && CheckStep(s, w).workers[w].pc != AtFail(true)
  {
    hide Progress, Heartbeat;
  }

  lemma OutputGivesNothingUp(s: State, w: nat)
    requires w < |s.workers| && s.workers[w].pc != AtFail(true)
    ensures OutputStep(s, w).workers[w].pc != AtFail(true)
  {
    hide PromoteOutput, DeleteBlob;
  }

  lemma GivingUpStays(cfg: Config, s: State, a: Action, w: nat)
    requires Inv(cfg, s) && w < |s.workers| && SpentOrFlagged(cfg, s.db, s.workers[w])
    ensures SpentOrFlagged(cfg, Apply(cfg, s, a).db, s.workers[w])
  {
    hide Apply, Consistent, TicketsOk, EnvelopesOk, SweepsOk, LapsedOk, SubmitsOk, QuotaOk;
    var wk := s.workers[w];
    assert WorkerOk(s.db, w, wk);
    ApplyMoves(cfg, s, a);
    if wk.job < |s.db.jobs| {
      assert RowMoved(cfg, s.db, Apply(cfg, s, a).db, wk.job);
    }
  }

  lemma FailedStepMovesOn(cfg: Config, s: State, a: Action, w: nat)
    requires w < |s.workers| && ActsAs(a, w) && s.workers[w].pc == AtFail(true)
    ensures w < |Apply(cfg, s, a).workers| ==> Apply(cfg, s, a).workers[w].pc != AtFail(true)
  {
    hide TerminalTransition, ProgressStep, CheckStep, OutputStep, ClaimStep;
  }

  /** For every run: a transient failure with budget left is given up only if the job was cancelled. */
  lemma {:induction false} GivesUpOnlySpentOrFlagged(cfg: Config, run: seq<Action>, w: nat)
    requires w < |Exec(cfg, START, run).workers|
    ensures SpentOrFlagged(cfg, Exec(cfg, START, run).db, Exec(cfg, START, run).workers[w])
    decreases |run|
  {
    hide Apply, Exec, Inv, SpentOrFlagged;
    if run == [] {
      ExecNone(cfg);
    } else {
      var before, a := run[..|run| - 1], run[|run| - 1];
      var s := Exec(cfg, START, before);
      ExecLast(cfg, run);
      Reachable(cfg, before);
      if w >= |s.workers| {
        ArrivesAtClaim(cfg, s, a, w);
      } else if !ActsAs(a, w) {
        GivesUpOnlySpentOrFlagged(cfg, before, w);
        OthersLeaveAlone(cfg, s, w, a);
        GivingUpStays(cfg, s, a, w);
      } else if s.workers[w].pc == AtFail(true) {
        FailedStepMovesOn(cfg, s, a, w);
        NotGivingUp(cfg, Exec(cfg, START, run).db, Exec(cfg, START, run).workers[w]);
      } else {
        GivingUp(cfg, s, a, w);
      }
    }
  }

  lemma NotGivingUp(cfg: Config, db: Db, wk: Worker)
    requires wk.pc != AtFail(true)
    ensures SpentOrFlagged(cfg, db, wk)
  {
  }

  lemma ArrivesAtClaim(cfg: Config, s: State, a: Action, w: nat)
    requires |s.workers| <= w < |Apply(cfg, s, a).workers|
    ensures SpentOrFlagged(cfg, Apply(cfg, s, a).db, Apply(cfg, s, a).workers[w])
  {
    hide WorkerStep, SubmitStep;
    if a.AWorker? && a.w < |s.workers| {
      StepFrame(cfg, s, a.w, a.oracle);
    } else if a.ASubmitStep? && a.i < |s.submits| {
      SubmitWorkers(cfg, s, a.i, a.reuse, a.ttl, a.limited);
    }
  }

  lemma RetryTurn(cfg: Config, s: State, w: nat)
    requires w < |s.workers| && s.workers[w].pc.AtRetry?
    ensures Apply(cfg, s, Turn(w, 0)) == RetryStep(cfg, s, w)
  {
    hide RetryStep, ProgressStep, CheckStep, OutputStep, ClaimStep;
  }

  lemma FailTurn(cfg: Config, s: State, w: nat)
    requires w < |s.workers| && s.workers[w].pc == AtFail(true)
    ensures Apply(cfg, s, Turn(w, 0)) == ConcludeStep(s, w, Failed, None, 0, true)
  {
    hide ConcludeStep, ProgressStep, CheckStep, OutputStep, ClaimStep;
  }

  lemma LetterTurn(cfg: Config, s: State, w: nat)
    requires w < |s.workers| && s.workers[w].pc.AtDeadLetter?
    ensures Apply(cfg, s, Turn(w, 0)) == Write(s, w, EmitDeadLetter(s.db, s.workers[w].job), AtExit)
  {
    hide EmitDeadLetter, ProgressStep, CheckStep, OutputStep, ClaimStep;
  }

  /** The job waits for another attempt; its message follows the event, or is lost with it. */
  ghost predicate WillRetry(cfg: Config, s: State, s': State, wk: Worker) {
    var i, kind := |s.debts|, RetryScheduled(wk.attempts);
    var paid, died := Pay(s', i), Default(s', i);
    && wk.job < |s'.db.jobs| && s'.db.jobs[wk.job].status.Retrying? && s'.db.announced == s.db.announced
    && s'.messages == s.messages + [Message(wk.job, Unsent, false)]
    && s'.db.events == s.db.events
    && paid.messages == s.messages + [Message(wk.job, Owed, false)]
    && paid.db == s'.db.(events := s.db.events + [JobEvent(wk.job, kind)])
    && died.messages == s.messages + [Message(wk.job, Lost, false)] && died.db == s'.db
  }

  /** Budget left and no request. */
  lemma RetriesNow(cfg: Config, s: State, w: nat)
    requires w < |s.workers| && s.workers[w].pc.AtRetry? && Fence(s.db, s.workers[w].job, s.workers[w].generation)
    requires !s.workers[w].flagged && s.workers[w].attempts < cfg.maxAttempts && !s.db.jobs[s.workers[w].job].cancelRequested
    ensures WillRetry(cfg, s, RetryStep(cfg, s, w), s.workers[w])
  {
    hide MomentOf;
  }

  lemma GivesUpNow(cfg: Config, s: State, w: nat)
    requires w < |s.workers| && s.workers[w].pc.AtRetry? && Fence(s.db, s.workers[w].job, s.workers[w].generation)
    requires !s.workers[w].flagged
    requires s.workers[w].attempts >= cfg.maxAttempts || s.db.jobs[s.workers[w].job].cancelRequested
    ensures RetryStep(cfg, s, w) == Goto(s, w, AtFail(true))
  {
  }

  lemma FailsAndReports(cfg: Config, s: State, w: nat)
    requires Consistent(s.db) && w < |s.workers| && s.workers[w].pc == AtFail(true)
    requires Fence(s.db, s.workers[w].job, s.workers[w].generation)
    ensures var j := s.workers[w].job;
            var s' := Apply(cfg, Apply(cfg, s, Turn(w, 0)), Turn(w, 0));
            && j < |s'.db.jobs| && s'.db.jobs[j].status.Failed?
            && s'.db.announced == s.db.announced + [Note(j, NoteFailed)] + [Note(j, NoteDeadLetter)]
  {
    hide Apply, Consistent;
    var j := s.workers[w].job;
    FailTurn(cfg, s, w);
    var failed := ConcludeStep(s, w, Failed, None, 0, true);
    FailedRow(s.db, j, s.workers[w].generation);
    VerdictCreates(s.db, j, s.workers[w].generation, Failed, None, 0);
    LetterTurn(cfg, failed, w);
    NoLetterYet(s.db, j, s.workers[w].generation);
  }

  lemma NoLetterYet(db: Db, j: nat, g: nat)
    requires Consistent(db) && Fence(db, j, g)
    ensures Note(j, NoteDeadLetter) !in TerminalTransition(db, j, g, Failed, None, 0).0.notes
  {
    Unannounced(db, j, NoteDeadLetter);
  }

  /**
   * What a transient failure under a current claim comes to: RETRYING, with an event and then a
   * message still to come from the worker, exactly if budget is left and nobody asked to cancel;
   * otherwise FAILED and one dead letter.
   */
  lemma TransientFailure(cfg: Config, s: State, w: nat)
    requires Inv(cfg, s) && w < |s.workers| && s.workers[w].pc.AtRetry?
    requires Fence(s.db, s.workers[w].job, s.workers[w].generation)
    ensures var j := s.workers[w].job;
            if s.workers[w].attempts < cfg.maxAttempts && !s.db.jobs[j].cancelRequested then
              WillRetry(cfg, s, Apply(cfg, s, Turn(w, 0)), s.workers[w])
            else
              var s' := Exec(cfg, s, Turns(w, 0, 3));
              && j < |s'.db.jobs| && s'.db.jobs[j].status.Failed?
              && s'.db.announced == s.db.announced + [Note(j, NoteFailed)] + [Note(j, NoteDeadLetter)]
  {
    hide Apply, WorkersOk, TicketsOk, EnvelopesOk, SweepsOk, LapsedOk, SubmitsOk, QuotaOk, Consistent, WillRetry;
    NoStaleFlag(cfg, s, w);
    RetryTurn(cfg, s, w);
    if s.workers[w].attempts < cfg.maxAttempts && !s.db.jobs[s.workers[w].job].cancelRequested {
      RetriesNow(cfg, s, w);
    } else {
      GivesUpNow(cfg, s, w);
      FailsAndReports(cfg, Goto(s, w, AtFail(true)), w);
      Then(cfg, s, Turns(w, 0, 0), Turn(w, 0));
      Then(cfg, s, Turns(w, 0, 1), Turn(w, 0));
      Then(cfg, s, Turns(w, 0, 2), Turn(w, 0));
    }
  }

  lemma NoStaleFlag(cfg: Config, s: State, w: nat)
    requires Inv(cfg, s) && w < |s.workers| && Running(s.workers[w].pc)
    ensures !s.workers[w].flagged
  {
    assert WorkerOk(s.db, w, s.workers[w]);
  }
}
