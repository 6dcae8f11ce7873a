/** How a job row moves, in one action and over a run. */
module RowHistory {
  import opened Common
  import opened Jobs
  import opened Database
  import opened DatabaseInvariant
  import opened Protocol
  import opened ProtocolInvariant
  import opened WorkerSafety
  import opened SystemSafety
  import opened Runs

  /** One action's effect on row `j`: a legal move, a retry only within the budget, and no foreign output. */
  predicate RowMoved(cfg: Config, db: Db, db': Db, j: nat)
    requires j < |db.jobs| <= |db'.jobs|
  {
    var r, r' := db.jobs[j], db'.jobs[j];
    && RowStep(db.now, r, r')
    && (r'.status.Retrying? && !r.status.Retrying? ==> r.attempts < cfg.maxAttempts)
    && (r'.output == r.output || r'.output.None? || OwnOutput(db'.made, j, r', r'.output.value))
  }

  ghost predicate Moved(cfg: Config, db: Db, db': Db) {
    && |db.jobs| <= |db'.jobs|
    && db.made <= db'.made
    && forall j :: 0 <= j < |db.jobs| ==> RowMoved(cfg, db, db', j)
  }

  /** Writes that make no job waiting cannot spend retry budget. */
  lemma QuietMoves(cfg: Config, db: Db, db': Db, link: Option<nat>)
    requires Evolves(db, db', link)
    requires forall j :: 0 <= j < |db.jobs| && db'.jobs[j].status.Retrying? ==> db.jobs[j].status.Retrying?
    ensures Moved(cfg, db, db')
  {
    forall j | 0 <= j < |db.jobs| ensures RowMoved(cfg, db, db', j) {
      assert RowStep(db.now, db.jobs[j], db'.jobs[j]);
      assert PointerStep(db'.made, j, db.jobs[j], db'.jobs[j], link);
    }
  }

  lemma SameMoves(cfg: Config, db: Db, db': Db)
    requires db'.jobs == db.jobs && db'.made == db.made
    ensures Moved(cfg, db, db')
  {
    forall j | 0 <= j < |db.jobs| ensures RowStep(db.now, db.jobs[j], db.jobs[j]) {
    }
  }

  lemma BeatMoves(cfg: Config, db: Db, j: nat, g: nat, percent: nat)
    requires Consistent(db) && percent <= 100
    ensures Moved(cfg, db, Progress(db, j, g, percent)) && Moved(cfg, db, Heartbeat(db, j, g))
  {
    ProgressKeeps(db, j, g, percent);
    QuietMoves(cfg, db, Progress(db, j, g, percent), None);
    HeartbeatKeeps(db, j, g);
    QuietMoves(cfg, db, Heartbeat(db, j, g), None);
  }

  lemma ProgressMoves(cfg: Config, s: State, w: nat, o: Oracle)
    requires Consistent(s.db) && w < |s.workers|
    ensures Moved(cfg, s.db, ProgressStep(s, w, o).db)
  {
    var j, g := s.workers[w].job, s.workers[w].generation;
    match s.workers[w].pc {
      case AtScan => BeatMoves(cfg, s.db, j, g, 5);
      case AtValidated => BeatMoves(cfg, s.db, j, g, 10);
      case AtBeatScan => BeatMoves(cfg, s.db, j, g, 0);
      case AtBeatConvert => BeatMoves(cfg, s.db, j, g, 0);
      case AtReportPromote =>
        BeatMoves(cfg, s.db, j, g, 96);
        SameMoves(cfg, s.db, s.db);
      case AtConvert =>
        BeatMoves(cfg, s.db, j, g, if o.report.Some? then Clamp(o.report.value) else 0);
        SameMoves(cfg, s.db, s.db);
      case _ => SameMoves(cfg, s.db, s.db);
    }
  }

  lemma OutputMoves(cfg: Config, s: State, w: nat)
    requires Inv(cfg, s) && w < |s.workers|
    ensures Moved(cfg, s.db, OutputStep(s, w).db)
  {
    var wk := s.workers[w];
    assert WorkerOk(s.db, w, wk);
    SameMoves(cfg, s.db, s.db);
    match wk.pc {
      case AtCreate =>
        PersistBlobKeeps(s.db, Conversion(wk.job, wk.generation, w));
        QuietMoves(cfg, s.db, PersistBlob(s.db, Conversion(wk.job, wk.generation, w)), None);
      case AtPromote(b) =>
        if b in s.db.blobs {
          PromoteOutputKeeps(s.db, wk.job, wk.generation, b, w);
          QuietMoves(cfg, s.db, PromoteOutput(s.db, wk.job, wk.generation, b).0, Some(b));
        }
      case AtDiscard(b, _) =>
        DeleteUnlinked(s.db, b);
        SameMoves(cfg, s.db, DeleteBlob(s.db, b));
      case _ =>
    }
  }

  lemma ConcludeMoves(cfg: Config, s: State, w: nat, status: Status, percent: Option<nat>, ttl: nat)
    requires Inv(cfg, s) && w < |s.workers| && Running(s.workers[w].pc)
    requires Verdict(status) && (percent.Some? ==> percent.value <= 100)
    requires status.Done? ==> s.workers[w].pc.AtDone?
    ensures Moved(cfg, s.db, TerminalTransition(s.db, s.workers[w].job, s.workers[w].generation, status, percent, ttl).0)
  {
    hide Moved, TicketsOk, EnvelopesOk, SweepsOk, LapsedOk, SubmitsOk, QuotaOk, TerminalTransition, Consistent;
    var wk := s.workers[w];
    assert WorkerOk(s.db, w, wk);
    DoneMayConclude(s.db, w, wk, status);
    TerminalTransitionKeeps(s.db, wk.job, wk.generation, status, percent, ttl);
    TerminalQuiet(s.db, wk.job, wk.generation, status, percent, ttl);
    QuietMoves(cfg, s.db, TerminalTransition(s.db, wk.job, wk.generation, status, percent, ttl).0, None);
  }

  lemma RetryMoves(cfg: Config, s: State, w: nat)
    requires Inv(cfg, s) && w < |s.workers| && s.workers[w].pc.AtRetry?
    ensures Moved(cfg, s.db, RetryStep(cfg, s, w).db)
  {
    var wk := s.workers[w];
    assert WorkerOk(s.db, w, wk);
    SameMoves(cfg, s.db, s.db);
    if wk.attempts < cfg.maxAttempts && RetryTransition(s.db, wk.job, wk.generation, false).1 {
      var db' := RetryTransition(s.db, wk.job, wk.generation, false).0;
      assert RowOk(s.db.now, s.db.made, s.db.blobs, wk.job, s.db.jobs[wk.job]);
      RetryTransitionKeeps(s.db, wk.job, wk.generation);
      forall j | 0 <= j < |s.db.jobs| ensures RowMoved(cfg, s.db, db', j) {
        assert RowStep(s.db.now, s.db.jobs[j], db'.jobs[j]);
      }
    }
  }

  lemma VerdictMoves(cfg: Config, s: State, w: nat, ttl: nat)
    requires Inv(cfg, s) && w < |s.workers|
    ensures Moved(cfg, s.db, VerdictStep(cfg, s, w, ttl).db)
  {
    match s.workers[w].pc {
      case AtDone(_) => ConcludeMoves(cfg, s, w, Done, Some(100), ttl);
      case AtCancelled => ConcludeMoves(cfg, s, w, Cancelled, Some(0), 0);
      case AtUnsupported => ConcludeMoves(cfg, s, w, Failed, None, 0);
      case AtFail(_) => ConcludeMoves(cfg, s, w, Failed, None, 0);
      case AtRetry => RetryMoves(cfg, s, w);
      case AtDeadLetter => SameMoves(cfg, s.db, EmitDeadLetter(s.db, s.workers[w].job));
      case _ => SameMoves(cfg, s.db, s.db);
    }
  }

  lemma WorkerMoves(cfg: Config, s: State, w: nat, o: Oracle)
    requires Inv(cfg, s) && w < |s.workers|
    ensures Moved(cfg, s.db, WorkerStep(cfg, s, w, o).db)
  {
    hide Moved, Consistent, WorkersOk, TicketsOk, EnvelopesOk, SweepsOk, LapsedOk, SubmitsOk, QuotaOk, Evolves;
    var pc, s' := s.workers[w].pc, WorkerStep(cfg, s, w, o);
    if pc.AtClaim? {
      var db' := ClaimJob(s.db, s.workers[w].job, w).0;
      ClaimJobKeeps(s.db, s.workers[w].job, w);
      ClaimSettles(s.db, s.workers[w].job, w);
      QuietMoves(cfg, s.db, db', None);
    } else if s'.db == s.db {
      SameMoves(cfg, s.db, s.db);
    } else if s' == ProgressStep(s, w, o) {
      ProgressMoves(cfg, s, w, o);
    } else if s' == OutputStep(s, w) {
      OutputMoves(cfg, s, w);
    } else {
      assert s' == VerdictStep(cfg, s, w, o.ttl);
      VerdictMoves(cfg, s, w, o.ttl);
    }
  }

  // ---- Sweeps, requests and submissions -----------------------------------------------------------

  /**
   * When a reaper's conditional update selects the row, no claim happened since its snapshot:
   * the attempt count it decided with is the row's own.
   */
  lemma SnapshotStillCurrent(cfg: Config, s: State, i: nat)
    requires Inv(cfg, s) && i < |s.reaps| && Abandoned(s.db, s.reaps[i].job, s.reaps[i].threshold)
    ensures s.db.jobs[s.reaps[i].job].attempts == s.reaps[i].attempts
  {
    var item := s.reaps[i];
    assert ReapOk(s.db, s.lapsed, item);
    assert RowOk(s.db.now, s.db.made, s.db.blobs, item.job, s.db.jobs[item.job]);
  }

  /** So a reaper requeues only within the budget. */
  lemma ReapWithinBudget(cfg: Config, s: State, i: nat, j: nat)
    requires Inv(cfg, s) && i < |s.reaps| && j < |s.db.jobs|
    requires Evolves(s.db, Reap(cfg, s.db, s.reaps[i]).0, None)
    ensures RowMoved(cfg, s.db, Reap(cfg, s.db, s.reaps[i]).0, j)
  {
    hide Consistent, WorkersOk, TicketsOk, EnvelopesOk, SweepsOk, LapsedOk, SubmitsOk, QuotaOk;
    var item, db' := s.reaps[i], Reap(cfg, s.db, s.reaps[i]).0;
    assert RowStep(s.db.now, s.db.jobs[j], db'.jobs[j]);
    assert PointerStep(db'.made, j, s.db.jobs[j], db'.jobs[j], None);
    if Abandoned(s.db, item.job, item.threshold) {
      SnapshotStillCurrent(cfg, s, i);
    }
  }

  lemma ReapMoves(cfg: Config, s: State, i: nat)
    requires Inv(cfg, s) && i < |s.reaps|
    ensures Moved(cfg, s.db, Reap(cfg, s.db, s.reaps[i]).0)
  {
    ReapKeeps(cfg, s.db, s.reaps[i]);
    forall j | 0 <= j < |s.db.jobs| ensures RowMoved(cfg, s.db, Reap(cfg, s.db, s.reaps[i]).0, j) {
      ReapWithinBudget(cfg, s, i, j);
    }
  }

  lemma ExpiryMoves(cfg: Config, db: Db, e: ExpiryItem)
    requires Consistent(db)
    ensures Moved(cfg, db, ExpireOutput(db, e.job, e.blob, e.cutoff))
  {
    ExpireOutputKeeps(db, e.job, e.blob, e.cutoff);
    ExpireQuiet(db, e.job, e.blob, e.cutoff);
    QuietMoves(cfg, db, ExpireOutput(db, e.job, e.blob, e.cutoff), None);
  }

  lemma DeleteMoves(cfg: Config, db: Db, b: nat)
    requires Consistent(db)
    ensures Moved(cfg, db, DeleteBlob(db, b))
  {
    DeleteBlobKeeps(db, b);
    DeleteQuiet(db, b);
    QuietMoves(cfg, db, DeleteBlob(db, b), None);
  }

  lemma SweepMoves(cfg: Config, s: State, a: Action)
    requires Inv(cfg, s) && (a.AReapAct? || a.AExpiryAct? || a.APurgeAct? || a.AGcAct?)
    ensures Moved(cfg, s.db, Apply(cfg, s, a).db)
  {
    hide Moved, Consistent, WorkersOk, TicketsOk, EnvelopesOk, SweepsOk, LapsedOk, SubmitsOk, QuotaOk;
    if a.AReapAct? && a.i < |s.reaps| {
      ReapMoves(cfg, s, a.i);
    } else if a.AExpiryAct? && a.i < |s.expiries| {
      ExpiryMoves(cfg, s.db, s.expiries[a.i]);
    } else if a.AGcAct? && a.i < |s.orphans| {
      DeleteMoves(cfg, s.db, s.orphans[a.i]);
    } else {
      SameMoves(cfg, s.db, Apply(cfg, s, a).db);
    }
  }

  lemma CancelWaitingMoves(cfg: Config, db: Db, j: nat)
    requires Consistent(db) && j < |db.jobs|
    ensures Moved(cfg, db, CancelWaiting(db, j))
  {
    CancelWaitingKeeps(db, j);
    CancelQuiet(db, j);
    QuietMoves(cfg, db, CancelWaiting(db, j), None);
  }

  lemma SetCancelFlagMoves(cfg: Config, db: Db, j: nat)
    requires Consistent(db) && j < |db.jobs|
    ensures Moved(cfg, db, SetCancelFlag(db, j))
  {
    SetCancelFlagKeeps(db, j);
    CancelQuiet(db, j);
    QuietMoves(cfg, db, SetCancelFlag(db, j), None);
  }

  lemma CancelMoves(cfg: Config, s: State, c: nat)
    requires Inv(cfg, s)
    ensures Moved(cfg, s.db, CancelAct(s, c).db)
  {
    if c < |s.cancels| && !s.cancels[c].Spent? && s.cancels[c].job < |s.db.jobs| {
      if s.cancels[c].Immediate? {
        CancelWaitingMoves(cfg, s.db, s.cancels[c].job);
      } else {
        SetCancelFlagMoves(cfg, s.db, s.cancels[c].job);
      }
    } else {
      SameMoves(cfg, s.db, s.db);
    }
  }

  lemma SubmitMoves(cfg: Config, s: State, i: nat, reuse: Option<nat>, ttl: nat, limited: bool)
    requires Inv(cfg, s) && i < |s.submits|
    ensures Moved(cfg, s.db, SubmitStep(cfg, s, i, reuse, ttl, limited).db)
  {
    hide Moved, Consistent, WorkersOk, TicketsOk, EnvelopesOk, SweepsOk, LapsedOk, SubmitsOk, QuotaOk, Evolves;
    var pc := s.submits[i].pc;
    if pc.Inserting? {
      InsertMoves(cfg, s, i, pc.blob);
    } else if pc.Persisting? {
      PersistBlobKeeps(s.db, Upload(i));
      QuietMoves(cfg, s.db, PersistBlob(s.db, Upload(i)), None);
    } else if pc.Dropping? || pc.DroppingRaced? || pc.Spoiling? {
      DeleteMoves(cfg, s.db, pc.blob);
    } else {
      SameMoves(cfg, s.db, SubmitStep(cfg, s, i, reuse, ttl, limited).db);
    }
  }

  lemma InsertMoves(cfg: Config, s: State, i: nat, b: nat)
    requires i < |s.submits|
    ensures Moved(cfg, s.db, InsertStep(s, i, b).db)
  {
    var db' := InsertStep(s, i, b).db;
    forall j | 0 <= j < |s.db.jobs| ensures RowMoved(cfg, s.db, db', j) {
      assert db'.jobs[j] == s.db.jobs[j];
    }
  }

  /** What every action does to every existing job row. */
  lemma ApplyMoves(cfg: Config, s: State, a: Action)
    requires Inv(cfg, s)
    ensures Moved(cfg, s.db, Apply(cfg, s, a).db)
  {
    hide Inv, Moved, WorkerStep, SubmitStep, WorkerRaise, SubmitFault, ReapAct, CancelAct, ExpiryAct, PurgeAct, GcAct, Pay, Default,
         ReapSnapshot, ExpirySnapshot, PurgeSnapshot, GcSnapshot;
    if a.AWorker? && a.w < |s.workers| {
      WorkerMoves(cfg, s, a.w, a.oracle);
    } else if a.ASubmitStep? && a.i < |s.submits| {
      SubmitMoves(cfg, s, a.i, a.reuse, a.ttl, a.limited);
    } else if a.ACancelAct? {
      CancelMoves(cfg, s, a.c);
    } else if a.AReapAct? || a.AExpiryAct? || a.APurgeAct? || a.AGcAct? {
      SweepMoves(cfg, s, a);
    } else {
      OthersLeaveRows(cfg, s, a);
      SameMoves(cfg, s.db, Apply(cfg, s, a).db);
    }
  }

  /** The actions that may write to job rows. */
  predicate Acts(s: State, a: Action) {
    || (a.AWorker? && a.w < |s.workers|)
    || (a.ASubmitStep? && a.i < |s.submits|)
    || (a.AReapAct? && a.i < |s.reaps|)
    || (a.ACancelAct? && a.c < |s.cancels|)
    || (a.AExpiryAct? && a.i < |s.expiries|)
    || (a.AGcAct? && a.i < |s.orphans|)
  }

  /** Everything else leaves the job rows alone. */
  lemma OthersLeaveRows(cfg: Config, s: State, a: Action)
    requires !Acts(s, a)
    ensures Apply(cfg, s, a).db.jobs == s.db.jobs && Apply(cfg, s, a).db.made == s.db.made
  {
  }

  // ---- Over runs -----------------------------------------------------------------------------------

  ghost predicate AllLater(a: seq<Job>, b: seq<Job>) {
    |a| <= |b| && forall j :: 0 <= j < |a| ==> RowLater(a[j], b[j])
  }

  /** Any number of later actions relates every job row by `RowLater`. */
  lemma {:induction false} RowsLater(cfg: Config, s: State, run: seq<Action>)
    requires Inv(cfg, s)
    ensures AllLater(s.db.jobs, Exec(cfg, s, run).db.jobs)
    decreases |run|
  {
    hide Apply;
    if run != [] {
      var mid, a := Exec(cfg, s, run[..|run| - 1]), run[|run| - 1];
      RowsLater(cfg, s, run[..|run| - 1]);
      RunKeeps(cfg, s, run[..|run| - 1]);
      ApplyMoves(cfg, mid, a);
      var last := Apply(cfg, mid, a);
      forall j | 0 <= j < |s.db.jobs| ensures RowLater(s.db.jobs[j], last.db.jobs[j]) {
        assert RowLater(s.db.jobs[j], mid.db.jobs[j]) && RowMoved(cfg, mid.db, last.db, j);
        RowLaterStep(mid.db.now, s.db.jobs[j], mid.db.jobs[j], last.db.jobs[j]);
      }
    }
  }
}
