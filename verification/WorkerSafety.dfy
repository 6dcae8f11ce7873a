/** Every step of a worker keeps the invariant. */
module WorkerSafety {
  import opened Common
  import opened Jobs
  import opened Database
  import opened DatabaseInvariant
  import opened Protocol
  import opened ProtocolInvariant

  /** The blob rows of `db'` are old ones or outputs, and quota decisions are untouched. */
  ghost predicate UploadsUntouched(db: Db, db': Db) {
    && (forall b :: b in db'.blobs ==> b in db.blobs || (b < |db'.made| && db'.made[b].maker.Conversion?))
    && (forall b :: |db.made| <= b < |db'.made| ==> db'.made[b].maker.Conversion?)
    && db'.allowed == db.allowed && db'.denied == db.denied
  }

  /** `s'` differs from `s` in the tables, the messages, the cache and worker `w` only. */
  predicate OnlyWorker(s: State, s': State, w: nat) {
    && w < |s.workers| == |s'.workers|
    && s'.workers == s.workers[w := s'.workers[w]]
    && s'.cancels == s.cancels && s'.reaps == s.reaps && s'.expiries == s.expiries && s'.purges == s.purges
    && s'.orphans == s.orphans && s'.submits == s.submits && s'.lapsed == s.lapsed && s.debts <= s'.debts
  }

  lemma StepKeeps(cfg: Config, s: State, s': State, w: nat, link: Option<nat>)
    requires Inv(cfg, s) && OnlyWorker(s, s', w)
    requires Consistent(s'.db) && Evolves(s.db, s'.db, link) && |s'.db.jobs| == |s.db.jobs|
    requires UploadsUntouched(s.db, s'.db)
    requires link.Some? ==> link.value < |s'.db.made| && s'.db.made[link.value].maker.Conversion? && s'.db.made[link.value].maker.worker == w
    requires WorkerOk(s'.db, w, s'.workers[w])
    requires TicketsOk(s'.db.jobs, s'.messages) && EnvelopesOk(s') && DebtsOk(s'.db, s'.debts)
    ensures Inv(cfg, s')
  {
    forall k | 0 <= k < |s.workers| && k != w ensures WorkerOk(s'.db, k, s'.workers[k]) {
      WorkerKeeps(s.db, s'.db, link, k, s.workers[k]);
    }
    SweepsKeep(s, s', link);
    LapsedKeeps(s.db, s'.db, link, s.lapsed);
    SubmitsKeep(s, s', link);
    QuotaKeeps(cfg, s, s', link);
  }

  /** The common case: the message table is untouched and nothing becomes waiting. */
  lemma WriteKeeps(cfg: Config, s: State, s': State, w: nat, link: Option<nat>)
    requires Inv(cfg, s) && OnlyWorker(s, s', w)
    requires s'.messages == s.messages && s'.debts == s.debts
    requires Consistent(s'.db) && Evolves(s.db, s'.db, link)
    requires NoNewWaiting(s.db.jobs, s'.db.jobs)
    requires UploadsUntouched(s.db, s'.db)
    requires link.Some? ==> link.value < |s'.db.made| && s'.db.made[link.value].maker.Conversion? && s'.db.made[link.value].maker.worker == w
    requires WorkerOk(s'.db, w, s'.workers[w])
    requires s'.workers[w].message == s.workers[w].message && s'.workers[w].job == s.workers[w].job
    requires Running(s.workers[w].pc) && !s'.workers[w].pc.AtClaim?
    ensures Inv(cfg, s')
  {
    TicketsKeep(s.db.jobs, s.messages, s'.db.jobs, s'.messages);
    DebtsKeep(s.db, s'.db, link, s.debts);
    forall k | 0 <= k < |s.workers| ensures EnvelopeOk(s'.messages, s'.workers[k]) {
      assert EnvelopeOk(s.messages, s.workers[k]);
    }
    StepKeeps(cfg, s, s', w, link);
  }

  /** The worker's grant survives a write that does not link another blob to its job. */
  lemma GrantKeeps(db: Db, db': Db, link: Option<nat>, w: nat, wk: Worker)
    requires wk.generation > 0 ==> GrantOk(db, w, wk)
    requires Evolves(db, db', link)
    ensures wk.generation > 0 ==> GrantOk(db', w, wk)
  {
    if wk.generation > 0 {
      assert RowStep(db.now, db.jobs[wk.job], db'.jobs[wk.job]);
    }
  }

  /** Worker `w` commits `db'` and moves on to `pc`. */
  lemma CommitKeeps(cfg: Config, s: State, w: nat, db': Db, pc: Pc, link: Option<nat>, cache: map<nat, nat>)
    requires Inv(cfg, s) && w < |s.workers| && Running(s.workers[w].pc) && !pc.AtClaim?
    requires Consistent(db') && Evolves(s.db, db', link)
    requires NoNewWaiting(s.db.jobs, db'.jobs) && UploadsUntouched(s.db, db')
    requires link.Some? ==> link.value < |db'.made| && db'.made[link.value].maker.Conversion? && db'.made[link.value].maker.worker == w
    requires PcOk(db', w, s.workers[w].(pc := pc))
    ensures Inv(cfg, Goto(s.(db := db', cache := cache), w, pc))
  {
    assert WorkerOk(s.db, w, s.workers[w]);
    GrantKeeps(s.db, db', link, w, s.workers[w]);
    WriteKeeps(cfg, s, Goto(s.(db := db', cache := cache), w, pc), w, link);
  }

  /** A move that writes nothing. */
  lemma GotoKeeps(cfg: Config, s: State, w: nat, pc: Pc)
    requires Inv(cfg, s) && w < |s.workers|
    requires Running(s.workers[w].pc) && !pc.AtClaim?
    requires PcOk(s.db, w, s.workers[w].(pc := pc))
    ensures Inv(cfg, Goto(s, w, pc))
  {
    StutterKeeps(s.db);
    CommitKeeps(cfg, s, w, s.db, pc, None, s.cache);
  }

  /** The program points that need nothing but the grant. */
  predicate Plain(pc: Pc) {
    !pc.AtClaim? && !pc.AtPromote? && !pc.AtRecheck? && !pc.AtDiscard? && !pc.AtDone? && !pc.AtDeadLetter?
  }

  /** A fenced progress write, with or without a cache write. */
  lemma ProgressWriteKeeps(cfg: Config, s: State, w: nat, percent: nat, pc: Pc, cache: map<nat, nat>)
    requires Inv(cfg, s) && w < |s.workers| && percent <= 100
    requires Running(s.workers[w].pc) && Plain(pc)
    ensures Inv(cfg, Goto(s.(db := Progress(s.db, s.workers[w].job, s.workers[w].generation, percent), cache := cache), w, pc))
  {
    hide Consistent, EnvelopesOk, SweepsOk, LapsedOk, SubmitsOk, QuotaOk, Evolves, TicketsOk, DebtsOk;
    var wk := s.workers[w];
    ProgressKeeps(s.db, wk.job, wk.generation, percent);
    CommitKeeps(cfg, s, w, Progress(s.db, wk.job, wk.generation, percent), pc, None, cache);
  }

  lemma BeatKeeps(cfg: Config, s: State, w: nat, pc: Pc)
    requires Inv(cfg, s) && w < |s.workers|
    requires Running(s.workers[w].pc) && Plain(pc)
    ensures Inv(cfg, Write(s, w, Heartbeat(s.db, s.workers[w].job, s.workers[w].generation), pc))
  {
    hide Consistent, TicketsOk, SweepsOk, LapsedOk, SubmitsOk, QuotaOk, Evolves;
    var wk := s.workers[w];
    HeartbeatKeeps(s.db, wk.job, wk.generation);
    CommitKeeps(cfg, s, w, Heartbeat(s.db, wk.job, wk.generation), pc, None, s.cache);
  }

  lemma ReportKeeps(cfg: Config, s: State, w: nat, percent: nat, pc: Pc)
    requires Inv(cfg, s) && w < |s.workers|
    requires s.workers[w].pc in {AtScan, AtConvert, AtReportPromote} && pc in {AtCheckScan, AtConvert, AtCreate}
    ensures Inv(cfg, Report(s, w, percent, pc))
  {
    ProgressWriteKeeps(cfg, s, w, Clamp(percent), pc, s.cache[s.workers[w].job := Clamp(percent)]);
  }

  lemma ProgressStepKeeps(cfg: Config, s: State, w: nat, o: Oracle)
    requires Inv(cfg, s) && w < |s.workers|
    ensures Inv(cfg, ProgressStep(s, w, o))
  {
    hide Inv;
    match s.workers[w].pc {
      case AtScan => ReportKeeps(cfg, s, w, 5, AtCheckScan);
      case AtValidated => ProgressWriteKeeps(cfg, s, w, 10, AtBeatScan, s.cache);
      case AtBeatScan => BeatKeeps(cfg, s, w, AtCheckConvert);
      case AtBeatConvert => BeatKeeps(cfg, s, w, AtCheckPromote);
      case AtConvert =>
        if o.report.Some? {
          ReportKeeps(cfg, s, w, o.report.value, AtConvert);
        } else {
          GotoKeeps(cfg, s, w, AtBeatConvert);
        }
      case AtReportPromote =>
        if o.report.Some? {
          ReportKeeps(cfg, s, w, 96, AtCreate);
        } else {
          GotoKeeps(cfg, s, w, AtCreate);
        }
      case _ =>
    }
  }

  lemma CheckKeeps(cfg: Config, s: State, w: nat, pc: Pc)
    requires Inv(cfg, s) && w < |s.workers|
    requires Running(s.workers[w].pc) && pc in {AtValidated, AtConvert, AtReportPromote}
    ensures Inv(cfg, Check(s, w, pc))
  {
    GotoKeeps(cfg, s, w, pc);
    GotoKeeps(cfg, s, w, AtExit);
    GotoKeeps(cfg, s, w, AtCancelled);
  }

  lemma CreateKeeps(cfg: Config, s: State, w: nat)
    requires Inv(cfg, s) && w < |s.workers| && s.workers[w].pc.AtCreate?
    ensures var maker := Conversion(s.workers[w].job, s.workers[w].generation, w);
            Inv(cfg, Write(s, w, PersistBlob(s.db, maker), AtPromote(|s.db.made|)))
  {
    var maker := Conversion(s.workers[w].job, s.workers[w].generation, w);
    PersistBlobKeeps(s.db, maker);
    CommitKeeps(cfg, s, w, PersistBlob(s.db, maker), AtPromote(|s.db.made|), None, s.cache);
  }

  lemma PromoteKeeps(cfg: Config, s: State, w: nat, b: nat)
    requires Inv(cfg, s) && w < |s.workers| && s.workers[w].pc == AtPromote(b)
    ensures Inv(cfg, PromoteStep(s, w, b))
  {
    var wk := s.workers[w];
    assert WorkerOk(s.db, w, wk);
    var (db', ok) := PromoteOutput(s.db, wk.job, wk.generation, b);
    if ok && b in s.db.blobs {
      PromoteOutputKeeps(s.db, wk.job, wk.generation, b, w);
      CommitKeeps(cfg, s, w, db', AtDone(b), Some(b), s.cache);
    } else {
      GotoKeeps(cfg, s, w, if ok then AtDiscard(b, Error(Permanent)) else AtRecheck(b));
    }
  }

  lemma DiscardQuiet(db: Db, b: nat)
    requires Unlinked(db, b)
    ensures var db' := DeleteBlob(db, b); db'.jobs == db.jobs && UploadsUntouched(db, db')
  {
    DeleteUnlinked(db, b);
  }

  lemma DiscardKeeps(cfg: Config, s: State, w: nat, pc: Pc)
    requires Inv(cfg, s) && w < |s.workers| && s.workers[w].pc.AtDiscard? && Plain(pc)
    ensures Inv(cfg, Write(s, w, DeleteBlob(s.db, s.workers[w].pc.blob), pc))
  {
    hide DeleteBlob, Evolves, Consistent, TicketsOk, EnvelopesOk, SweepsOk, LapsedOk, SubmitsOk, QuotaOk;
    var b := s.workers[w].pc.blob;
    assert WorkerOk(s.db, w, s.workers[w]);
    DeleteBlobKeeps(s.db, b);
    DiscardQuiet(s.db, b);
    CommitKeeps(cfg, s, w, DeleteBlob(s.db, b), pc, None, s.cache);
  }

  lemma ConcludeQuiet(db: Db, j: nat, status: Status, percent: Option<nat>, ttl: nat)
    requires Verdict(status) && j < |db.jobs|
    ensures var db' := Conclude(db, j, status, percent, ttl);
            && NoNewWaiting(db.jobs, db'.jobs) && db'.jobs[j].status == status
            && db'.blobs == db.blobs && db'.made == db.made && db'.allowed == db.allowed && db'.denied == db.denied
  {
  }

  lemma RetireQuiet(db: Db, j: nat, blob: Option<nat>)
    requires j < |db.jobs| && db.jobs[j].status.Done?
    ensures var db' := Retire(db, j, blob);
            && NoNewWaiting(db.jobs, db'.jobs)
            && db'.blobs.Keys == db.blobs.Keys && db'.made == db.made && db'.allowed == db.allowed && db'.denied == db.denied
  {
  }

  lemma TerminalQuiet(db: Db, j: nat, g: nat, status: Status, percent: Option<nat>, ttl: nat)
    requires Verdict(status)
    ensures var (db', ok) := TerminalTransition(db, j, g, status, percent, ttl);
            && NoNewWaiting(db.jobs, db'.jobs) && UploadsUntouched(db, db')
            && (ok && status.Failed? ==> j < |db'.jobs| && db'.jobs[j].status.Failed?)
  {
    if Fence(db, j, g) {
      ConcludeQuiet(db, j, status, percent, ttl);
      if status.Done? && ttl == 0 {
        var ended := Conclude(db, j, status, percent, ttl);
        RetireQuiet(ended, j, ended.jobs[j].output);
      }
    }
  }

  /** A worker at `AtDone` may conclude: the pointer of its job, if current, is its own blob. */
  lemma DoneMayConclude(db: Db, w: nat, wk: Worker, status: Status)
    requires WorkerOk(db, w, wk) && Running(wk.pc)
    requires status.Done? ==> wk.pc.AtDone?
    ensures Fence(db, wk.job, wk.generation) ==> MayConclude(db, wk.job, status)
  {
  }

  lemma ConcludeAtKeeps(cfg: Config, s: State, w: nat, status: Status, percent: Option<nat>, ttl: nat, pc: Pc)
    requires Inv(cfg, s) && w < |s.workers| && Running(s.workers[w].pc)
    requires Verdict(status) && (percent.Some? ==> percent.value <= 100)
    requires status.Done? ==> s.workers[w].pc.AtDone?
    requires var (db', ok) := TerminalTransition(s.db, s.workers[w].job, s.workers[w].generation, status, percent, ttl);
             pc == AtExit || (pc == AtDeadLetter && ok && status.Failed?)
    ensures Inv(cfg, Write(s, w, TerminalTransition(s.db, s.workers[w].job, s.workers[w].generation, status, percent, ttl).0, pc))
  {
    var wk := s.workers[w];
    assert WorkerOk(s.db, w, wk);
    var (db', ok) := TerminalTransition(s.db, wk.job, wk.generation, status, percent, ttl);
    DoneMayConclude(s.db, w, wk, status);
    TerminalTransitionKeeps(s.db, wk.job, wk.generation, status, percent, ttl);
    TerminalQuiet(s.db, wk.job, wk.generation, status, percent, ttl);
    CommitKeeps(cfg, s, w, db', pc, None, s.cache);
  }

  /** The handlers' and the final verdict: DONE only over the worker's own pointer. */
  lemma ConcludeStepKeeps(cfg: Config, s: State, w: nat, status: Status, percent: Option<nat>, ttl: nat, deadLetter: bool)
    requires Inv(cfg, s) && w < |s.workers| && Running(s.workers[w].pc)
    requires Verdict(status) && (percent.Some? ==> percent.value <= 100)
    requires status.Done? ==> s.workers[w].pc.AtDone?
    requires deadLetter ==> status.Failed?
    ensures Inv(cfg, ConcludeStep(s, w, status, percent, ttl, deadLetter))
  {
    var ok := TerminalTransition(s.db, s.workers[w].job, s.workers[w].generation, status, percent, ttl).1;
    ConcludeAtKeeps(cfg, s, w, status, percent, ttl, if ok && deadLetter then AtDeadLetter else AtExit);
  }

  lemma DeadLetterQuiet(db: Db, j: nat)
    ensures var db' := EmitDeadLetter(db, j);
            && db'.jobs == db.jobs && db'.blobs == db.blobs && db'.made == db.made
            && db'.allowed == db.allowed && db'.denied == db.denied
  {
  }

  lemma DeadLetterKeeps(cfg: Config, s: State, w: nat)
    requires Inv(cfg, s) && w < |s.workers| && s.workers[w].pc.AtDeadLetter?
    ensures Inv(cfg, Write(s, w, EmitDeadLetter(s.db, s.workers[w].job), AtExit))
  {
    hide SweepsOk, LapsedOk, SubmitsOk, QuotaOk;
    var j := s.workers[w].job;
    assert WorkerOk(s.db, w, s.workers[w]);
    EmitDeadLetterKeeps(s.db, j);
    DeadLetterQuiet(s.db, j);
    CommitKeeps(cfg, s, w, EmitDeadLetter(s.db, j), AtExit, None, s.cache);
  }

  lemma EnvelopesKeep(s: State, s': State, w: nat)
    requires EnvelopesOk(s) && OnlyWorker(s, s', w) && |s.messages| <= |s'.messages|
    requires forall m :: 0 <= m < |s.messages| ==>
               s'.messages[m].job == s.messages[m].job && (s.messages[m].tried ==> s'.messages[m].tried)
    requires EnvelopeOk(s'.messages, s'.workers[w])
    ensures EnvelopesOk(s')
  {
    forall k | 0 <= k < |s.workers| && k != w ensures EnvelopeOk(s'.messages, s'.workers[k]) {
      assert EnvelopeOk(s.messages, s.workers[k]);
    }
  }

  /** A job that becomes waiting comes with a new message. */
  lemma PostTickets(jobs: seq<Job>, jobs': seq<Job>, messages: seq<Message>, j: nat)
    requires TicketsOk(jobs, messages) && |jobs| == |jobs'| && j < |jobs|
    requires forall k :: 0 <= k < |jobs| && k != j ==> jobs'[k] == jobs[k]
    ensures TicketsOk(jobs', messages + [Message(j, Unsent, false)])
  {
    var messages' := messages + [Message(j, Unsent, false)];
    assert messages'[|messages|].job == j && Live(messages'[|messages|]);
    TicketsKeep(jobs, messages, jobs', messages');
  }

  lemma RetryGranted(cfg: Config, s: State, w: nat)
    requires Inv(cfg, s) && w < |s.workers| && s.workers[w].pc.AtRetry?
    requires var wk := s.workers[w];
             wk.attempts < cfg.maxAttempts && RetryTransition(s.db, wk.job, wk.generation, false).1
    ensures Inv(cfg, RetryStep(cfg, s, w))
  {
    var wk, s' := s.workers[w], RetryStep(cfg, s, w);
    assert WorkerOk(s.db, w, wk);
    RetryTransitionKeeps(s.db, wk.job, wk.generation);
    GrantKeeps(s.db, s'.db, None, w, wk);
    PostTickets(s.db.jobs, s'.db.jobs, s.messages, wk.job);
    assert EnvelopeOk(s.messages, wk);
    EnvelopesKeep(s, s', w);
    DebtsKeep(s.db, s'.db, None, s.debts);
    assert DebtOk(s'.db, s'.debts[|s.debts|]);
    StepKeeps(cfg, s, s', w, None);
  }

  /** A retry makes its job waiting, and defers the message for it. */
  lemma RetryKeeps(cfg: Config, s: State, w: nat)
    requires Inv(cfg, s) && w < |s.workers| && s.workers[w].pc.AtRetry?
    ensures Inv(cfg, RetryStep(cfg, s, w))
  {
    var wk := s.workers[w];
    assert WorkerOk(s.db, w, wk);
    if wk.attempts < cfg.maxAttempts && RetryTransition(s.db, wk.job, wk.generation, false).1 {
      RetryGranted(cfg, s, w);
    } else {
      GotoKeeps(cfg, s, w, AtFail(true));
    }
  }

  /** `claim_job` touches no blob and no quota decision. */
  lemma ClaimQuiet(db: Db, j: nat, w: nat)
    ensures var db' := ClaimJob(db, j, w).0;
            && |db'.jobs| == |db.jobs|
            && db'.blobs == db.blobs && db'.made == db.made && db'.allowed == db.allowed && db'.denied == db.denied
  {
  }

  lemma ClaimSettles(db: Db, j: nat, w: nat)
    ensures var db' := ClaimJob(db, j, w).0;
            && NoNewWaiting(db.jobs, db'.jobs)
            && (j < |db.jobs| ==> !db'.jobs[j].status.Waiting())
  {
  }

  lemma ClaimGrants(db: Db, j: nat, w: nat)
    requires Consistent(db)
    ensures var (db', claim) := ClaimJob(db, j, w);
            claim.Granted? ==>
              && j < |db.jobs| && !claim.flagged
              && claim.generation == claim.attempts == db'.jobs[j].generation > 0
              && db'.jobs[j].worker == Some(w)
  {
    if j < |db.jobs| {
      assert RowOk(db.now, db.made, db.blobs, j, db.jobs[j]);
    }
  }

  /** A claim attempt spends its message, and leaves the job not waiting. */
  lemma ClaimKeeps(cfg: Config, s: State, w: nat)
    requires Inv(cfg, s) && w < |s.workers| && s.workers[w].pc.AtClaim?
    ensures Inv(cfg, ClaimStep(s, w))
  {
    hide ClaimJob, Consistent, Evolves, SweepsOk, LapsedOk, SubmitsOk, QuotaOk;
    var wk, s' := s.workers[w], ClaimStep(s, w);
    assert WorkerOk(s.db, w, wk);
    assert EnvelopeOk(s.messages, wk);
    ClaimJobKeeps(s.db, wk.job, w);
    ClaimQuiet(s.db, wk.job, w);
    ClaimSettles(s.db, wk.job, w);
    ClaimGrants(s.db, wk.job, w);
    TicketsKeep(s.db.jobs, s.messages, s'.db.jobs, s'.messages);
    DebtsKeep(s.db, s'.db, None, s.debts);
    EnvelopesKeep(s, s', w);
    StepKeeps(cfg, s, s', w, None);
  }

  /** Leaving: by acknowledging the message, losing it, or dying with it unacknowledged. */
  lemma LeaveKeeps(cfg: Config, s: State, s': State, w: nat)
    requires Inv(cfg, s) && w < |s.workers|
    requires var m := s.workers[w].message;
             || s' == Goto(s, w, Gone)
             || s' == Goto(s.(messages := Lose(s.messages, m)), w, Gone)
             || (s.workers[w].pc.AtExit? && s' == Goto(s.(messages := Ack(s.messages, m)), w, Gone))
    ensures Inv(cfg, s')
  {
    hide Consistent, SweepsOk, LapsedOk, SubmitsOk, QuotaOk, Evolves;
    assert WorkerOk(s.db, w, s.workers[w]);
    assert EnvelopeOk(s.messages, s.workers[w]);
    StutterKeeps(s.db);
    TicketsKeep(s.db.jobs, s.messages, s'.db.jobs, s'.messages);
    forall k | 0 <= k < |s.workers| ensures EnvelopeOk(s'.messages, s'.workers[k]) {
      assert EnvelopeOk(s.messages, s.workers[k]);
    }
    StepKeeps(cfg, s, s', w, None);
  }

  lemma ExitKeeps(cfg: Config, s: State, w: nat)
    requires Inv(cfg, s) && w < |s.workers| && s.workers[w].pc.AtExit?
    ensures Inv(cfg, Goto(s.(messages := Ack(s.messages, s.workers[w].message)), w, Gone))
  {
    LeaveKeeps(cfg, s, Goto(s.(messages := Ack(s.messages, s.workers[w].message)), w, Gone), w);
  }

  lemma VerdictStepKeeps(cfg: Config, s: State, w: nat, ttl: nat)
    requires Inv(cfg, s) && w < |s.workers|
    ensures Inv(cfg, VerdictStep(cfg, s, w, ttl))
  {
    hide Inv, ConcludeStep, RetryStep;
    match s.workers[w].pc {
      case AtDone(_) => ConcludeStepKeeps(cfg, s, w, Done, Some(100), ttl, false);
      case AtCancelled => ConcludeStepKeeps(cfg, s, w, Cancelled, Some(0), 0, false);
      case AtUnsupported => ConcludeStepKeeps(cfg, s, w, Failed, None, 0, false);
      case AtRetry => RetryKeeps(cfg, s, w);
      case AtFail(transient) => ConcludeStepKeeps(cfg, s, w, Failed, None, 0, transient);
      case AtDeadLetter => DeadLetterKeeps(cfg, s, w);
      case _ =>
    }
  }

  lemma CheckStepKeeps(cfg: Config, s: State, w: nat)
    requires Inv(cfg, s) && w < |s.workers|
    ensures Inv(cfg, CheckStep(s, w))
  {
    hide Inv;
    match s.workers[w].pc {
      case AtCheckScan => CheckKeeps(cfg, s, w, AtValidated);
      case AtCheckConvert => CheckKeeps(cfg, s, w, AtConvert);
      case AtCheckPromote => CheckKeeps(cfg, s, w, AtReportPromote);
      case _ =>
    }
  }

  lemma RecheckKeeps(cfg: Config, s: State, w: nat, b: nat)
    requires Inv(cfg, s) && w < |s.workers| && s.workers[w].pc == AtRecheck(b)
    ensures Inv(cfg, RecheckStep(s, w, b))
  {
    assert WorkerOk(s.db, w, s.workers[w]);
    GotoKeeps(cfg, s, w, AtDiscard(b, CancelSeen));
    GotoKeeps(cfg, s, w, AtDiscard(b, Superseded));
  }

  lemma OutputStepKeeps(cfg: Config, s: State, w: nat)
    requires Inv(cfg, s) && w < |s.workers|
    ensures Inv(cfg, OutputStep(s, w))
  {
    hide Inv, PromoteStep, RecheckStep;
    match s.workers[w].pc {
      case AtCreate => CreateKeeps(cfg, s, w);
      case AtPromote(b) => PromoteKeeps(cfg, s, w, b);
      case AtRecheck(b) => RecheckKeeps(cfg, s, w, b);
      case AtDiscard(_, cause) => DiscardKeeps(cfg, s, w, Handler(cause));
      case _ =>
    }
  }

  lemma WorkerStepKeeps(cfg: Config, s: State, w: nat, o: Oracle)
    requires Inv(cfg, s) && w < |s.workers|
    ensures Inv(cfg, WorkerStep(cfg, s, w, o))
  {
    hide Inv;
    var pc, s' := s.workers[w].pc, WorkerStep(cfg, s, w, o);
    if pc.AtClaim? {
      ClaimKeeps(cfg, s, w);
    } else if pc.AtExit? {
      ExitKeeps(cfg, s, w);
    } else if s' == ProgressStep(s, w, o) {
      ProgressStepKeeps(cfg, s, w, o);
    } else if s' == CheckStep(s, w) {
      CheckStepKeeps(cfg, s, w);
    } else if s' == OutputStep(s, w) {
      OutputStepKeeps(cfg, s, w);
    } else {
      assert s' == VerdictStep(cfg, s, w, o.ttl);
      VerdictStepKeeps(cfg, s, w, o.ttl);
    }
  }

  /** Where an exception takes a worker that holds a claim. */
  function Landing(wk: Worker, kind: ErrorKind): Pc {
    match wk.pc
    case AtPromote(b) => AtDiscard(b, Error(kind))
    case AtRecheck(b) => AtDiscard(b, Error(kind))
    case AtCancelled | AtUnsupported | AtRetry | AtFail(_) | AtDeadLetter => AtExit
    case _ => Handler(Error(kind))
  }

  lemma LandingTaken(s: State, w: nat, kind: ErrorKind)
    requires w < |s.workers| && Running(s.workers[w].pc) && !s.workers[w].pc.AtDiscard?
    ensures WorkerRaise(s, w, kind) == Goto(s, w, Landing(s.workers[w], kind))
  {
  }

  lemma LandingOk(db: Db, w: nat, wk: Worker, kind: ErrorKind)
    requires WorkerOk(db, w, wk) && Running(wk.pc) && !wk.pc.AtDiscard?
    ensures PcOk(db, w, wk.(pc := Landing(wk, kind)))
  {
  }

  lemma LandingKeeps(cfg: Config, s: State, w: nat, kind: ErrorKind)
    requires Inv(cfg, s) && w < |s.workers| && Running(s.workers[w].pc) && !s.workers[w].pc.AtDiscard?
    ensures Inv(cfg, WorkerRaise(s, w, kind))
  {
    var pc := Landing(s.workers[w], kind);
    LandingTaken(s, w, kind);
    LandingOk(s.db, w, s.workers[w], kind);
    GotoKeeps(cfg, s, w, pc);
  }

  lemma WorkerRaiseKeeps(cfg: Config, s: State, w: nat, kind: ErrorKind)
    requires Inv(cfg, s) && w < |s.workers|
    ensures Inv(cfg, WorkerRaise(s, w, kind))
  {
    hide Inv;
    var wk, s' := s.workers[w], WorkerRaise(s, w, kind);
    if wk.pc.AtClaim? {
      LeaveKeeps(cfg, s, s', w);
    } else if Running(wk.pc) && !wk.pc.AtDiscard? {
      LandingKeeps(cfg, s, w, kind);
    } else {
      assert s' == s;
    }
  }

  // ---- What a step leaves alone -----------------------------------------------------------------------

  lemma ProgressFrame(s: State, k: nat, o: Oracle)
    requires k < |s.workers|
    ensures OnlyWorker(s, ProgressStep(s, k, o), k) && OnlyWorker(s, CheckStep(s, k), k)
  {
  }

  lemma OutputFrame(s: State, k: nat)
    requires k < |s.workers|
    ensures OnlyWorker(s, OutputStep(s, k), k)
  {
  }

  lemma VerdictFrame(cfg: Config, s: State, k: nat, ttl: nat)
    requires k < |s.workers|
    ensures OnlyWorker(s, VerdictStep(cfg, s, k, ttl), k)
  {
  }

  lemma StepFrame(cfg: Config, s: State, k: nat, o: Oracle)
    requires k < |s.workers|
    ensures OnlyWorker(s, WorkerStep(cfg, s, k, o), k)
  {
    hide ProgressStep, CheckStep, OutputStep, VerdictStep;
    ProgressFrame(s, k, o);
    OutputFrame(s, k);
    VerdictFrame(cfg, s, k, o.ttl);
  }
}
