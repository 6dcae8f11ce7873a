/** The event log tells of every dead letter: one event for each outbox row ever created. */
module DeadLetters {
  import opened Common
  import opened Jobs
  import opened Database
  import opened DatabaseInvariant
  import opened Protocol
  import opened ProtocolInvariant
  import opened WorkerSafety
  import opened Runs
  import opened Announcements

  /** The dead-letter events of job `j`. */
  function Tellings(db: Db, j: nat): nat {
    multiset(db.events)[JobEvent(j, DeadLettered)]
  }

  /** Events were added, none of them of a dead letter. */
  predicate Silent(db: Db, db': Db) {
    && db.events <= db'.events
    && forall i :: |db.events| <= i < |db'.events| ==> !db'.events[i].kind.DeadLettered?
  }

  lemma SilentTells(db: Db, db': Db, j: nat)
    requires Silent(db, db')
    ensures Tellings(db', j) == Tellings(db, j)
  {
    var added := db'.events[|db.events|..];
    assert db'.events == db.events + added;
    assert JobEvent(j, DeadLettered) !in added;
  }

  lemma SilentSelf(db: Db, db': Db)
    requires db'.events == db.events
    ensures Silent(db, db')
  {
  }

  lemma ClaimSilent(db: Db, j: nat, w: nat)
    ensures Silent(db, ClaimJob(db, j, w).0)
  {
  }

  lemma VerdictSilent(db: Db, j: nat, g: nat, status: Status, percent: Option<nat>, ttl: nat)
    requires Verdict(status)
    ensures Silent(db, TerminalTransition(db, j, g, status, percent, ttl).0)
  {
  }

  lemma BeatSilent(db: Db, j: nat, g: nat, percent: nat)
    ensures Progress(db, j, g, percent).events == Heartbeat(db, j, g).events == db.events
  {
  }

  lemma ProgressSilent(s: State, w: nat, o: Oracle)
    requires w < |s.workers|
    ensures ProgressStep(s, w, o).db.events == s.db.events
  {
    hide Progress, Heartbeat;
    var wk := s.workers[w];
    var percent := if wk.pc.AtScan? then 5 else if wk.pc.AtValidated? then 10 else if wk.pc.AtReportPromote? then 96
                   else if o.report.Some? then Clamp(o.report.value) else 0;
    BeatSilent(s.db, wk.job, wk.generation, percent);
  }

  lemma QuietSilent(s: State, w: nat)
    requires w < |s.workers|
    ensures CheckStep(s, w).db.events == OutputStep(s, w).db.events == s.db.events
  {
  }

  lemma VerdictStepSilent(cfg: Config, s: State, w: nat, ttl: nat)
    requires w < |s.workers| && !s.workers[w].pc.AtDeadLetter?
    ensures Silent(s.db, VerdictStep(cfg, s, w, ttl).db)
  {
    hide TerminalTransition;
    var wk := s.workers[w];
    VerdictSilent(s.db, wk.job, wk.generation, Done, Some(100), ttl);
    VerdictSilent(s.db, wk.job, wk.generation, Cancelled, Some(0), 0);
    VerdictSilent(s.db, wk.job, wk.generation, Failed, None, 0);
    SilentSelf(s.db, s.db);
  }

  lemma WorkerTells(cfg: Config, s: State, w: nat, o: Oracle, j: nat)
    requires w < |s.workers|
    requires LetterDue(s.db, s.workers[w]) && Consistent(s.db)
    ensures Tellings(WorkerStep(cfg, s, w, o).db, j) == Tellings(s.db, j) + Times(ExtraOfWorker(s, w), j, NoteDeadLetter)
  {
    hide ClaimJob, TerminalTransition, ProgressStep, CheckStep, OutputStep, VerdictStep, Silent, Consistent;
    var wk, s' := s.workers[w], WorkerStep(cfg, s, w, o);
    if wk.pc.AtDeadLetter? {
      LetterTells(s.db, wk.job, j);
      assert s'.db == EmitDeadLetter(s.db, wk.job) by {
        DeadLetterApplies(cfg, s, w, o.ttl);
      }
    } else {
      if wk.pc.AtClaim? {
        ClaimSilent(s.db, wk.job, w);
      } else if s' == VerdictStep(cfg, s, w, o.ttl) {
        VerdictStepSilent(cfg, s, w, o.ttl);
      } else {
        ProgressSilent(s, w, o);
        QuietSilent(s, w);
        SilentSelf(s.db, s'.db);
      }
      SilentTells(s.db, s'.db, j);
    }
  }

  lemma DeadLetterApplies(cfg: Config, s: State, w: nat, ttl: nat)
    requires w < |s.workers| && s.workers[w].pc.AtDeadLetter?
    ensures VerdictStep(cfg, s, w, ttl).db == EmitDeadLetter(s.db, s.workers[w].job)
  {
  }

  /** The letter and its event. */
  lemma LetterTells(db: Db, k: nat, j: nat)
    requires Consistent(db) && Times(db.announced, k, NoteDeadLetter) == 0
    ensures Note(k, NoteDeadLetter) !in db.notes
    ensures Tellings(EmitDeadLetter(db, k), j) == Tellings(db, j) + (if j == k then 1 else 0)
  {
  }

  lemma ReapTells(cfg: Config, db: Db, item: ReapItem, j: nat)
    requires Consistent(db)
    ensures Tellings(Reap(cfg, db, item).0, j) == Tellings(db, j) + Times(ExtraOfReap(cfg, db, item), j, NoteDeadLetter)
  {
    hide Consistent, ReapFail, ReapCancel, ReapRequeue, Abandoned, Silent, Tellings;
    if !item.flagged && item.attempts >= cfg.maxAttempts && Abandoned(db, item.job, item.threshold) {
      ReapFailTells(db, item.job, item.threshold, j);
    } else {
      ReapSilent(db, item.job, item.threshold);
      SilentTells(db, Reap(cfg, db, item).0, j);
    }
  }

  lemma ReapSilent(db: Db, j: nat, threshold: int)
    ensures Silent(db, ReapCancel(db, j)) && Silent(db, ReapRequeue(db, j, threshold).0)
    ensures !Abandoned(db, j, threshold) ==> Silent(db, ReapFail(db, j, threshold))
  {
  }

  lemma ReapFailTells(db: Db, k: nat, threshold: int, j: nat)
    requires Abandoned(db, k, threshold)
    ensures Tellings(ReapFail(db, k, threshold), j) == Tellings(db, j) + (if j == k then 1 else 0)
  {
    hide Abandoned;
    var told := [JobEvent(k, Concluded(Failed)), JobEvent(k, DeadLettered)];
    assert ReapFail(db, k, threshold).events == db.events + told;
    assert multiset(told)[JobEvent(j, DeadLettered)] == if j == k then 1 else 0;
  }

  lemma PayTells(s: State, i: nat, j: nat)
    requires DebtsOk(s.db, s.debts)
    ensures Tellings(Pay(s, i).db, j) == Tellings(s.db, j)
  {
    if i < |s.debts| {
      assert DebtOk(s.db, s.debts[i]);
    }
    SilentTells(s.db, Pay(s, i).db, j);
  }

  lemma SubmitTells(cfg: Config, s: State, i: nat, reuse: Option<nat>, ttl: nat, limited: bool, j: nat)
    requires i < |s.submits|
    ensures Tellings(SubmitStep(cfg, s, i, reuse, ttl, limited).db, j) == Tellings(s.db, j)
  {
    hide Lookup, ReserveQuota, FindJob, Matches, QuotaFree, Tellings;
    SilentTells(s.db, SubmitStep(cfg, s, i, reuse, ttl, limited).db, j);
  }

  lemma ExpiryTells(s: State, i: nat, j: nat)
    ensures Tellings(ExpiryAct(s, i).db, j) == Tellings(s.db, j)
  {
    SilentTells(s.db, ExpiryAct(s, i).db, j);
  }

  lemma OtherTells(cfg: Config, s: State, a: Action)
    requires !a.AWorker? && !a.AReapAct? && !a.APay? && !a.ASubmitStep? && !a.AExpiryAct?
    ensures Apply(cfg, s, a).db.events == s.db.events
  {
    hide Stale, PurgeDue, Collectable, Abandoned;
  }

  /** Each action tells of the dead letters it creates, and of no other. */
  lemma ApplyTells(cfg: Config, s: State, a: Action, j: nat)
    requires Inv(cfg, s) && LettersOk(s)
    ensures Tellings(Apply(cfg, s, a).db, j) == Tellings(s.db, j) + Times(Extra(cfg, s, a), j, NoteDeadLetter)
  {
    hide WorkerStep, SubmitStep, Reap, Pay, ExpiryAct, ExtraOfWorker, ExtraOfReap, Tellings, Consistent,
         WorkersOk, TicketsOk, EnvelopesOk, SweepsOk, LapsedOk, SubmitsOk, QuotaOk, DebtsOk;
    if a.AWorker? && a.w < |s.workers| {
      assert LetterDue(s.db, s.workers[a.w]);
      WorkerTells(cfg, s, a.w, a.oracle, j);
    } else if a.AReapAct? && a.i < |s.reaps| {
      ReapTells(cfg, s.db, s.reaps[a.i], j);
    } else if a.APay? {
      PayTells(s, a.i, j);
    } else if a.ASubmitStep? && a.i < |s.submits| {
      SubmitTells(cfg, s, a.i, a.reuse, a.ttl, a.limited, j);
    } else if a.AExpiryAct? {
      ExpiryTells(s, a.i, j);
    } else if !a.AWorker? && !a.AReapAct? && !a.ASubmitStep? {
      OtherTells(cfg, s, a);
      SilentSelf(s.db, Apply(cfg, s, a).db);
      SilentTells(s.db, Apply(cfg, s, a).db, j);
    }
  }

  /**
   * After every run, crashes and purges included: a job has as many dead-letter events as dead letters
   * were ever created for it, that is, one or none.
   */
  lemma {:induction false} LettersAreTold(cfg: Config, run: seq<Action>, j: nat)
    ensures var db := Exec(cfg, START, run).db;
            Tellings(db, j) == Times(db.announced, j, NoteDeadLetter) <= 1
    decreases |run|
  {
    hide Apply, Extra, Tellings;
    if run == [] {
      assert Tellings(START.db, j) == 0 by {
        NothingTold(j);
      }
    } else {
      var before, a := run[..|run| - 1], run[|run| - 1];
      var s := Exec(cfg, START, before);
      LettersAreTold(cfg, before, j);
      Reachable(cfg, before);
      OneDeadLetter(cfg, before);
      ApplyTells(cfg, s, a, j);
      LetterTimes(cfg, s, a, j);
    }
  }

  lemma NothingTold(j: nat)
    ensures Tellings(START.db, j) == 0
  {
  }
}
