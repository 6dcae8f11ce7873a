/** Which outbox rows every action creates, and what that means for cancellations and dead letters. */
module Announcements {
  import opened Common
  import opened Jobs
  import opened Database
  import opened DatabaseInvariant
  import opened Protocol
  import opened ProtocolInvariant
  import opened WorkerSafety
  import opened Runs
  import opened RowHistory

  // ---- The outbox rows of an action -------------------------------------------------------------------

  function If(c: bool, n: Note): seq<Note> {
    if c then [n] else []
  }

  /** The outbox rows `extra`, none of which was there, were created between `db` and `db'`. */
  predicate Creates(db: Db, db': Db, extra: seq<Note>) {
    && db'.announced == db.announced + extra
    && db'.notes == db.notes + (set n | n in extra)
    && (forall n :: n in extra ==> n !in db.notes)
    && (forall i, k :: 0 <= i < k < |extra| ==> extra[i] != extra[k])
  }

  function ExtraOfWorker(s: State, w: nat): seq<Note>
    requires w < |s.workers|
  {
    var wk := s.workers[w];
    var j := wk.job;
    var fenced := Fence(s.db, j, wk.generation);
    if wk.pc.AtClaim? then
      If(j < |s.db.jobs| && s.db.jobs[j].cancelRequested && s.db.jobs[j].status.Waiting(), Note(j, NoteCancelled))
    else if wk.pc.AtDone? then If(fenced, Note(j, NoteDone))
    else if wk.pc.AtCancelled? then If(fenced, Note(j, NoteCancelled))
    else if wk.pc.AtUnsupported? || wk.pc.AtFail? then If(fenced, Note(j, NoteFailed))
    else if wk.pc.AtDeadLetter? then If(Note(j, NoteDeadLetter) !in s.db.notes, Note(j, NoteDeadLetter))
    else []
  }

  function ExtraOfReap(cfg: Config, db: Db, item: ReapItem): seq<Note> {
    if !item.flagged && item.attempts >= cfg.maxAttempts && Abandoned(db, item.job, item.threshold)
    then [Note(item.job, NoteFailed), Note(item.job, NoteDeadLetter)] else []
  }

  /** The outbox rows that `a` creates. */
  function Extra(cfg: Config, s: State, a: Action): seq<Note> {
    if a.AWorker? && a.w < |s.workers| then ExtraOfWorker(s, a.w)
    else if a.AReapAct? && a.i < |s.reaps| then ExtraOfReap(cfg, s.db, s.reaps[a.i])
    else if a.APay? && a.i < |s.debts| then If(PaysKey(s, a.i), Note(s.debts[a.i].job, NoteCancelled))
    else []
  }

  /** The next late statement of debt `i` creates its outbox row. */
  predicate PaysKey(s: State, i: nat) {
    && i < |s.debts| && s.debts[i].job < |s.db.jobs|
    && !s.debts[i].event.Due? && s.debts[i].note.Due? && Note(s.debts[i].job, NoteCancelled) !in s.db.notes
  }

  lemma CancelCreates(db: Db, j: nat)
    requires Consistent(db) && j < |db.jobs|
    ensures Creates(db, ImmediateCancel(db, j), If(db.jobs[j].status.Waiting(), Note(j, NoteCancelled)))
    ensures Creates(db, CancelWaiting(db, j), []) && Creates(db, SetCancelFlag(db, j), [])
  {
    if db.jobs[j].status.Waiting() {
      Unannounced(db, j, NoteCancelled);
    }
  }

  lemma VerdictCreates(db: Db, j: nat, g: nat, status: Status, percent: Option<nat>, ttl: nat)
    requires Consistent(db) && Verdict(status)
    ensures Creates(db, TerminalTransition(db, j, g, status, percent, ttl).0, If(Fence(db, j, g), Note(j, NoteOf(status))))
  {
    if Fence(db, j, g) {
      Unannounced(db, j, NoteOf(status));
    }
  }

  lemma ReapFailCreates(db: Db, j: nat, threshold: int)
    requires Consistent(db) && Abandoned(db, j, threshold)
    ensures Creates(db, ReapFail(db, j, threshold), [Note(j, NoteFailed), Note(j, NoteDeadLetter)])
  {
    hide Consistent, ReapFail, Times;
    Unannounced(db, j, NoteFailed);
    Unannounced(db, j, NoteDeadLetter);
    ReapFailWrites(db, j, threshold);
  }

  lemma ReapCreates(cfg: Config, db: Db, item: ReapItem)
    requires Consistent(db)
    ensures Creates(db, Reap(cfg, db, item).0, ExtraOfReap(cfg, db, item))
  {
    hide Consistent;
    if !item.flagged && item.attempts >= cfg.maxAttempts && Abandoned(db, item.job, item.threshold) {
      hide Creates, ReapFail;
      ReapFailCreates(db, item.job, item.threshold);
    }
  }

  lemma ClaimCreates(db: Db, j: nat, w: nat)
    requires Consistent(db)
    ensures Creates(db, ClaimJob(db, j, w).0,
                    If(j < |db.jobs| && db.jobs[j].cancelRequested && db.jobs[j].status.Waiting(), Note(j, NoteCancelled)))
  {
    if j < |db.jobs| && db.jobs[j].cancelRequested {
      CancelCreates(db, j);
    }
  }

  lemma BeatCreates(db: Db, j: nat, g: nat, percent: nat)
    ensures Creates(db, Progress(db, j, g, percent), []) && Creates(db, Heartbeat(db, j, g), [])
  {
  }

  lemma ProgressCreates(s: State, w: nat, o: Oracle)
    requires w < |s.workers|
    ensures Creates(s.db, ProgressStep(s, w, o).db, [])
  {
    hide Progress, Heartbeat;
    assert Creates(s.db, s.db, []);
    hide Creates;
    var j, g, pc := s.workers[w].job, s.workers[w].generation, s.workers[w].pc;
    var percent := if pc.AtScan? then 5 else if pc.AtValidated? then 10 else if pc.AtReportPromote? then 96
                   else if o.report.Some? then Clamp(o.report.value) else 0;
    BeatCreates(s.db, j, g, percent);
  }

  lemma QuietCreates(s: State, w: nat, o: Oracle)
    requires w < |s.workers|
    ensures Creates(s.db, ProgressStep(s, w, o).db, [])
    ensures Creates(s.db, CheckStep(s, w).db, [])
    ensures Creates(s.db, OutputStep(s, w).db, [])
  {
    hide ProgressStep;
    ProgressCreates(s, w, o);
  }

  lemma RetryCreates(cfg: Config, s: State, w: nat)
    requires w < |s.workers| && !s.workers[w].flagged
    ensures Creates(s.db, RetryStep(cfg, s, w).db, [])
  {
  }

  lemma VerdictStepCreates(cfg: Config, s: State, w: nat, ttl: nat)
    requires Inv(cfg, s) && w < |s.workers|
    requires var pc := s.workers[w].pc;
             pc.AtDone? || pc.AtCancelled? || pc.AtUnsupported? || pc.AtFail? || pc.AtDeadLetter? || pc.AtRetry?
    ensures Creates(s.db, VerdictStep(cfg, s, w, ttl).db, ExtraOfWorker(s, w))
  {
    hide Consistent, TerminalTransition, TicketsOk, EnvelopesOk, SweepsOk, LapsedOk, SubmitsOk, QuotaOk;
    var wk := s.workers[w];
    assert WorkerOk(s.db, w, wk);
    assert Creates(s.db, s.db, []);
    if wk.pc.AtDone? {
      VerdictCreates(s.db, wk.job, wk.generation, Done, Some(100), ttl);
    } else if wk.pc.AtCancelled? {
      VerdictCreates(s.db, wk.job, wk.generation, Cancelled, Some(0), 0);
    } else if wk.pc.AtRetry? {
      RetryCreates(cfg, s, w);
    } else if !wk.pc.AtDeadLetter? {
      VerdictCreates(s.db, wk.job, wk.generation, Failed, None, 0);
    }
  }

  lemma WorkerCreates(cfg: Config, s: State, w: nat, o: Oracle)
    requires Inv(cfg, s) && w < |s.workers|
    ensures Creates(s.db, WorkerStep(cfg, s, w, o).db, ExtraOfWorker(s, w))
  {
    hide ClaimJob, ProgressStep, CheckStep, OutputStep, VerdictStep, Consistent, WorkersOk, TicketsOk,
         EnvelopesOk, SweepsOk, LapsedOk, SubmitsOk, QuotaOk;
    var pc := s.workers[w].pc;
    assert Creates(s.db, s.db, []);
    if pc.AtClaim? {
      ClaimCreates(s.db, s.workers[w].job, w);
    } else if pc.AtDone? || pc.AtCancelled? || pc.AtUnsupported? || pc.AtFail? || pc.AtDeadLetter? || pc.AtRetry? {
      VerdictStepCreates(cfg, s, w, o.ttl);
    } else {
      QuietCreates(s, w, o);
    }
  }

  lemma SubmitCreates(cfg: Config, s: State, i: nat, reuse: Option<nat>, ttl: nat, limited: bool)
    requires i < |s.submits|
    ensures Creates(s.db, SubmitStep(cfg, s, i, reuse, ttl, limited).db, [])
  {
    hide Lookup, ReserveQuota, FindJob, Matches, QuotaFree;
  }

  lemma OtherCreates(cfg: Config, s: State, a: Action)
    requires !Acts(s, a) && !a.APay?
    ensures Apply(cfg, s, a).db.announced == s.db.announced
    ensures !a.APurgeNote? ==> Creates(s.db, Apply(cfg, s, a).db, [])
  {
  }

  lemma PayCreates(s: State, i: nat)
    requires i < |s.debts|
    ensures Creates(s.db, Pay(s, i).db, If(PaysKey(s, i), Note(s.debts[i].job, NoteCancelled)))
  {
    assert s.db.announced + [] == s.db.announced;
  }

  lemma SweepCreates(s: State, i: nat)
    ensures Creates(s.db, ExpiryAct(s, i).db, []) && Creates(s.db, GcAct(s, i).db, [])
  {
  }

  lemma ActsCreate(cfg: Config, s: State, a: Action)
    requires Inv(cfg, s) && Acts(s, a)
    ensures Creates(s.db, Apply(cfg, s, a).db, Extra(cfg, s, a))
  {
    hide WorkerStep, SubmitStep, Reap, CancelWaiting, SetCancelFlag, ExpiryAct, GcAct, Consistent,
         WorkersOk, TicketsOk, EnvelopesOk, SweepsOk, LapsedOk, SubmitsOk, QuotaOk, DebtsOk;
    if a.AWorker? {
      WorkerCreates(cfg, s, a.w, a.oracle);
    } else if a.AReapAct? {
      ReapCreates(cfg, s.db, s.reaps[a.i]);
    } else if a.ACancelAct? {
      NothingCreated(s.db);
      if !s.cancels[a.c].Spent? && s.cancels[a.c].job < |s.db.jobs| {
        CancelCreates(s.db, s.cancels[a.c].job);
      }
    } else if a.ASubmitStep? {
      SubmitCreates(cfg, s, a.i, a.reuse, a.ttl, a.limited);
    } else {
      SweepCreates(s, a.i);
    }
  }

  lemma NothingCreated(db: Db)
    ensures Creates(db, db, [])
  {
  }

  lemma PayAnnounces(cfg: Config, s: State, i: nat)
    ensures Creates(s.db, Apply(cfg, s, APay(i)).db, Extra(cfg, s, APay(i)))
  {
    hide Pay, PaysKey;
    if i < |s.debts| {
      PayCreates(s, i);
    } else {
      NoDebt(s, i);
      NothingCreated(s.db);
    }
  }

  /** The history of outbox rows grows by exactly `Extra`; the rows present, too, unless the action purges one. */
  lemma Announces(cfg: Config, s: State, a: Action)
    requires Inv(cfg, s)
    ensures Apply(cfg, s, a).db.announced == s.db.announced + Extra(cfg, s, a)
    ensures !a.APurgeNote? ==> Creates(s.db, Apply(cfg, s, a).db, Extra(cfg, s, a))
  {
    hide Apply, Inv;
    if a.APay? {
      PayAnnounces(cfg, s, a.i);
    } else if Acts(s, a) {
      ActsCreate(cfg, s, a);
    } else {
      OtherCreates(cfg, s, a);
    }
  }

  lemma NoDebt(s: State, i: nat)
    requires i >= |s.debts|
    ensures Pay(s, i) == s
  {
  }

  lemma TimesGrow(announced: seq<Note>, extra: seq<Note>, j: nat, kind: NoteKind)
    ensures Times(announced + extra, j, kind) == Times(announced, j, kind) + Times(extra, j, kind)
  {
  }

  // ---- Cancellations ------------------------------------------------------------------------------------

  predicate Cancels(db: Db, db': Db, j: nat) {
    && j < |db.jobs| && j < |db'.jobs|
    && !db.jobs[j].status.Cancelled? && db'.jobs[j].status.Cancelled?
  }

  /** The worker whose step cancels a job creates the key. */
  lemma WorkerCancels(cfg: Config, s: State, w: nat, o: Oracle, j: nat)
    requires Inv(cfg, s) && w < |s.workers| && j < |s.db.jobs|
    ensures Times(ExtraOfWorker(s, w), j, NoteCancelled) == (if Cancels(s.db, WorkerStep(cfg, s, w, o).db, j) then 1 else 0)
  {
    hide Consistent, TicketsOk, EnvelopesOk, SweepsOk, LapsedOk, SubmitsOk, QuotaOk, ProgressStep, OutputStep,
         VerdictStep, CheckStep, ClaimJob;
    var wk, pc := s.workers[w], s.workers[w].pc;
    assert WorkerOk(s.db, w, wk);
    if pc.AtClaim? {
      ClaimCancels(s.db, wk.job, w, j);
    } else if pc.AtDone? || pc.AtCancelled? || pc.AtUnsupported? || pc.AtFail? || pc.AtDeadLetter? || pc.AtRetry? {
      VerdictCancels(cfg, s, w, o.ttl, j);
    } else {
      QuietStatus(s, w, o, j);
    }
  }

  lemma ClaimCancels(db: Db, k: nat, w: nat, j: nat)
    requires j < |db.jobs|
    ensures Cancels(db, ClaimJob(db, k, w).0, j) <==> j == k && db.jobs[j].cancelRequested && db.jobs[j].status.Waiting()
  {
  }

  lemma BeatStatus(db: Db, k: nat, g: nat, percent: nat, j: nat)
    requires j < |db.jobs|
    ensures !Cancels(db, Progress(db, k, g, percent), j) && !Cancels(db, Heartbeat(db, k, g), j)
  {
  }

  lemma ProgressStatus(s: State, w: nat, o: Oracle, j: nat)
    requires w < |s.workers| && j < |s.db.jobs|
    ensures !Cancels(s.db, ProgressStep(s, w, o).db, j)
  {
    hide Progress, Heartbeat;
    var k, g, pc := s.workers[w].job, s.workers[w].generation, s.workers[w].pc;
    var percent := if pc.AtScan? then 5 else if pc.AtValidated? then 10 else if pc.AtReportPromote? then 96
                   else if o.report.Some? then Clamp(o.report.value) else 0;
    BeatStatus(s.db, k, g, percent, j);
    var db' := ProgressStep(s, w, o).db;
    assert db' == s.db || db' == Heartbeat(s.db, k, g) || db' == Progress(s.db, k, g, percent);
  }

  lemma OutputStatus(s: State, w: nat, j: nat)
    requires w < |s.workers| && j < |s.db.jobs|
    ensures !Cancels(s.db, OutputStep(s, w).db, j)
  {
  }

  lemma QuietStatus(s: State, w: nat, o: Oracle, j: nat)
    requires w < |s.workers| && j < |s.db.jobs|
    ensures !Cancels(s.db, ProgressStep(s, w, o).db, j) && !Cancels(s.db, OutputStep(s, w).db, j)
    ensures !Cancels(s.db, CheckStep(s, w).db, j)
  {
    hide ProgressStep, OutputStep;
    ProgressStatus(s, w, o, j);
    OutputStatus(s, w, j);
  }

  lemma TerminalCancels(db: Db, k: nat, g: nat, status: Status, percent: Option<nat>, ttl: nat, j: nat)
    requires Verdict(status) && j < |db.jobs|
    ensures Cancels(db, TerminalTransition(db, k, g, status, percent, ttl).0, j) <==>
              j == k && Fence(db, j, g) && status.Cancelled?
  {
  }

  lemma RetryCancelsNothing(cfg: Config, s: State, w: nat, j: nat)
    requires w < |s.workers| && !s.workers[w].flagged && j < |s.db.jobs|
    ensures !Cancels(s.db, RetryStep(cfg, s, w).db, j)
  {
  }

  lemma VerdictCancels(cfg: Config, s: State, w: nat, ttl: nat, j: nat)
    requires w < |s.workers| && WorkerOk(s.db, w, s.workers[w]) && j < |s.db.jobs|
    requires var pc := s.workers[w].pc;
             pc.AtDone? || pc.AtCancelled? || pc.AtUnsupported? || pc.AtFail? || pc.AtDeadLetter? || pc.AtRetry?
    ensures Times(ExtraOfWorker(s, w), j, NoteCancelled) == (if Cancels(s.db, VerdictStep(cfg, s, w, ttl).db, j) then 1 else 0)
  {
    hide TerminalTransition;
    var wk := s.workers[w];
    if wk.pc.AtDone? {
      TerminalCancels(s.db, wk.job, wk.generation, Done, Some(100), ttl, j);
    } else if wk.pc.AtCancelled? {
      TerminalCancels(s.db, wk.job, wk.generation, Cancelled, Some(0), 0, j);
    } else if wk.pc.AtRetry? {
      RetryCancelsNothing(cfg, s, w, j);
    } else if !wk.pc.AtDeadLetter? {
      TerminalCancels(s.db, wk.job, wk.generation, Failed, None, 0, j);
    }
  }

  lemma RequestCancels(db: Db, k: nat, j: nat)
    requires k < |db.jobs| && j < |db.jobs|
    ensures Cancels(db, CancelWaiting(db, k), j) <==> j == k && db.jobs[j].status.Waiting()
    ensures !Cancels(db, SetCancelFlag(db, k), j)
  {
  }

  lemma SubmitCancelsNothing(cfg: Config, s: State, i: nat, reuse: Option<nat>, ttl: nat, limited: bool, j: nat)
    requires i < |s.submits| && j < |s.db.jobs|
    ensures !Cancels(s.db, SubmitStep(cfg, s, i, reuse, ttl, limited).db, j)
  {
    var db' := SubmitStep(cfg, s, i, reuse, ttl, limited).db;
    assert j < |db'.jobs| ==> db'.jobs[j].status == s.db.jobs[j].status;
  }

  lemma SweepCancelsNothing(s: State, i: nat, j: nat)
    requires j < |s.db.jobs|
    ensures !Cancels(s.db, ExpiryAct(s, i).db, j) && !Cancels(s.db, GcAct(s, i).db, j)
  {
  }

  /** The key of a cancelled job is created by the worker that cancels it, in the same step, or by a late statement. */
  lemma KeySource(cfg: Config, s: State, a: Action, j: nat)
    requires Inv(cfg, s) && j < |s.db.jobs|
    ensures Times(Extra(cfg, s, a), j, NoteCancelled)
            == (if (a.AWorker? && Cancels(s.db, Apply(cfg, s, a).db, j))
                   || (a.APay? && PaysKey(s, a.i) && s.debts[a.i].job == j)
                then 1 else 0)
  {
    hide WorkerStep, SubmitStep, CancelAct, Pay, PaysKey, ExpiryAct, GcAct, Consistent,
         WorkersOk, TicketsOk, EnvelopesOk, SweepsOk, LapsedOk, SubmitsOk, QuotaOk, DebtsOk;
    if a.AWorker? && a.w < |s.workers| {
      WorkerCancels(cfg, s, a.w, a.oracle, j);
    } else if a.APay? && a.i >= |s.debts| {
      NoKeyToPay(s, a.i);
    }
  }

  lemma NoKeyToPay(s: State, i: nat)
    requires i >= |s.debts|
    ensures !PaysKey(s, i)
  {
  }

  /** A debt for a key is made by a cancel request, in the step in which it cancels the job. */
  predicate CancelsOnRequest(s: State, s': State, a: Action, d: Debt) {
    d.kind.CancelledOff? ==> a.ACancelAct? && Cancels(s.db, s'.db, d.job)
  }

  lemma NewDebts(cfg: Config, s: State, a: Action)
    requires Inv(cfg, s) && !a.APay? && !a.ADefault?
    ensures var s' := Apply(cfg, s, a);
            && s.debts <= s'.debts
            && forall i :: |s.debts| <= i < |s'.debts| ==> CancelsOnRequest(s, s', a, s'.debts[i])
  {
    hide WorkerStep, SubmitStep, CancelAct, Inv;
    if a.AWorker? && a.w < |s.workers| {
      WorkerDebts(cfg, s, a.w, a.oracle);
    } else if a.ASubmitStep? && a.i < |s.submits| {
      SubmitDebts(cfg, s, a.i, a.reuse, a.ttl, a.limited);
    } else if a.ACancelAct? {
      RequestDebts(s, a.c);
    }
  }

  lemma WorkerDebts(cfg: Config, s: State, w: nat, o: Oracle)
    requires w < |s.workers|
    ensures s.debts <= WorkerStep(cfg, s, w, o).debts
    ensures forall i :: |s.debts| <= i < |WorkerStep(cfg, s, w, o).debts| ==>
        WorkerStep(cfg, s, w, o).debts[i].kind.RetryScheduled?
  {
    hide ClaimJob, Progress, Heartbeat, PromoteOutput, DeleteBlob, TerminalTransition, RetryTransition;
  }

  lemma SubmitDebts(cfg: Config, s: State, i: nat, reuse: Option<nat>, ttl: nat, limited: bool)
    requires i < |s.submits|
    ensures SubmitStep(cfg, s, i, reuse, ttl, limited).debts == s.debts
  {
  }

  lemma RequestDebts(s: State, c: nat)
    ensures var s' := CancelAct(s, c);
            && s.debts <= s'.debts
            && forall i :: |s.debts| <= i < |s'.debts| && s'.debts[i].kind.CancelledOff? ==>
                 Cancels(s.db, s'.db, s'.debts[i].job)
  {
  }

  /** Action `p` of the run was a reaper's, and cancelled job `j`. */
  predicate ReaperCancelledAt(cfg: Config, run: seq<Action>, p: nat, j: nat) {
    && p < |run| && run[p].AReapAct?
    && Cancels(Exec(cfg, START, run[..p]).db, Exec(cfg, START, run[..p + 1]).db, j)
  }

  /** CANCELLED is final, so a job not cancelled now was not cancelled before. */
  lemma NotCancelledBefore(cfg: Config, run: seq<Action>, p: nat, j: nat)
    requires p <= |run| && j < |Exec(cfg, START, run).db.jobs| && !Exec(cfg, START, run).db.jobs[j].status.Cancelled?
    ensures j < |Exec(cfg, START, run[..p]).db.jobs| ==> !Exec(cfg, START, run[..p]).db.jobs[j].status.Cancelled?
  {
    hide Apply, Exec;
    assert run == run[..p] + run[p..];
    ExecSplit(cfg, START, run[..p], run[p..]);
    Reachable(cfg, run[..p]);
    RowsLater(cfg, Exec(cfg, START, run[..p]), run[p..]);
    var s := Exec(cfg, START, run[..p]);
    assert j < |s.db.jobs| ==> RowLater(s.db.jobs[j], Exec(cfg, START, run).db.jobs[j]);
  }

  lemma ExecLast(cfg: Config, run: seq<Action>)
    requires run != []
    ensures Exec(cfg, START, run) == Apply(cfg, Exec(cfg, START, run[..|run| - 1]), run[|run| - 1])
  {
    hide Apply;
  }

  lemma PrefixOfPrefix(run: seq<Action>, n: nat, p: nat)
    requires p <= n <= |run|
    ensures run[..n][..p] == run[..p]
  {
  }

  /** A reaper's cancellation in the run is one before its last action, or that action. */
  lemma ReaperCancelledNow(cfg: Config, run: seq<Action>, j: nat)
    requires run != []
    ensures var n := |run| - 1;
            (exists p: nat :: ReaperCancelledAt(cfg, run, p, j))
            <==> (exists p: nat :: ReaperCancelledAt(cfg, run[..n], p, j)) || ReaperCancelledAt(cfg, run, n, j)
  {
    hide Exec, Apply;
    var n := |run| - 1;
    forall p: nat | p < n ensures ReaperCancelledAt(cfg, run, p, j) <==> ReaperCancelledAt(cfg, run[..n], p, j) {
      PrefixOfPrefix(run, n, p);
      PrefixOfPrefix(run, n, p + 1);
    }
    forall p: nat | ReaperCancelledAt(cfg, run[..n], p, j) ensures ReaperCancelledAt(cfg, run, p, j) {
    }
    forall p: nat | ReaperCancelledAt(cfg, run, p, j) ensures p == n || ReaperCancelledAt(cfg, run[..n], p, j) {
    }
  }

  /** A job not cancelled yet has no key, and no reaper has cancelled it. */
  lemma NoKeyYet(cfg: Config, run: seq<Action>, j: nat)
    requires j < |Exec(cfg, START, run).db.jobs| && !Exec(cfg, START, run).db.jobs[j].status.Cancelled?
    ensures Times(Exec(cfg, START, run).db.announced, j, NoteCancelled) == 0
    ensures !exists p: nat :: ReaperCancelledAt(cfg, run, p, j)
  {
    hide Apply, Exec;
    Reachable(cfg, run);
    var db := Exec(cfg, START, run).db;
    assert NotesOfRow(db.announced, j, db.jobs[j].status);
    forall p: nat | p < |run| ensures !ReaperCancelledAt(cfg, run, p, j) {
      NotCancelledBefore(cfg, run, p + 1, j);
    }
  }

  /** The key of job `j` is owed: the request that cancelled it has not written its outbox row yet, or never will. */
  ghost predicate KeyOwed(debts: seq<Debt>, j: nat) {
    exists i :: 0 <= i < |debts| && OwesKey(debts[i], j)
  }

  predicate OwesKey(d: Debt, j: nat) {
    d.job == j && (d.note.Due? || d.note.Forgone?)
  }

  ghost predicate Reaped(cfg: Config, run: seq<Action>, j: nat) {
    exists p: nat :: ReaperCancelledAt(cfg, run, p, j)
  }

  predicate OffDebt(d: Debt, j: nat) {
    d.job == j && d.kind.CancelledOff?
  }

  /** At most one request cancelled the job, and none if a reaper did. */
  ghost predicate OneCanceller(cfg: Config, run: seq<Action>, debts: seq<Debt>, j: nat) {
    && (forall i, k :: 0 <= i < |debts| && 0 <= k < |debts| && OffDebt(debts[i], j) && OffDebt(debts[k], j) ==> i == k)
    && (Reaped(cfg, run, j) ==> forall i :: 0 <= i < |debts| ==> !OffDebt(debts[i], j))
  }

  ghost predicate KeyTold(cfg: Config, run: seq<Action>, s: State, j: nat)
    requires j < |s.db.jobs|
  {
    && OneCanceller(cfg, run, s.debts, j)
    && Times(s.db.announced, j, NoteCancelled)
       == (if s.db.jobs[j].status.Cancelled? && !Reaped(cfg, run, j) && !KeyOwed(s.debts, j) then 1 else 0)
  }

  /** Before it is cancelled, no request can have cancelled the job. */
  lemma NoOffDebtYet(cfg: Config, s: State, j: nat)
    requires Inv(cfg, s) && (j >= |s.db.jobs| || !s.db.jobs[j].status.Cancelled?)
    ensures forall i :: 0 <= i < |s.debts| ==> !OffDebt(s.debts[i], j)
  {
    hide Consistent, WorkersOk, TicketsOk, EnvelopesOk, SweepsOk, LapsedOk, SubmitsOk, QuotaOk;
    forall i | 0 <= i < |s.debts| ensures !OffDebt(s.debts[i], j) {
      assert DebtOk(s.db, s.debts[i]);
    }
  }

  lemma OwersAreOff(cfg: Config, s: State, j: nat)
    requires Inv(cfg, s)
    ensures forall i :: 0 <= i < |s.debts| && OwesKey(s.debts[i], j) ==> OffDebt(s.debts[i], j)
  {
    hide Consistent, WorkersOk, TicketsOk, EnvelopesOk, SweepsOk, LapsedOk, SubmitsOk, QuotaOk;
    forall i | 0 <= i < |s.debts| && OwesKey(s.debts[i], j) ensures OffDebt(s.debts[i], j) {
      assert DebtOk(s.db, s.debts[i]);
    }
  }

  /** The debts of a job that is cancelled already, after one more action that is no late statement. */
  lemma OffDebtsStay(cfg: Config, s: State, a: Action, j: nat)
    requires Inv(cfg, s) && !a.APay? && !a.ADefault? && j < |s.db.jobs| && !Cancels(s.db, Apply(cfg, s, a).db, j)
    ensures var debts' := Apply(cfg, s, a).debts;
            && s.debts <= debts'
            && (forall i :: |s.debts| <= i < |debts'| ==> !OffDebt(debts'[i], j))
            && (KeyOwed(debts', j) <==> KeyOwed(s.debts, j))
  {
    hide Apply, Inv, Cancels;
    var s' := Apply(cfg, s, a);
    NewDebts(cfg, s, a);
    forall i | |s.debts| <= i < |s'.debts| ensures !OffDebt(s'.debts[i], j) {
      assert CancelsOnRequest(s, s', a, s'.debts[i]);
    }
    ApplyKeeps(cfg, s, a);
    OwersAreOff(cfg, s', j);
    if KeyOwed(s.debts, j) {
      var i :| 0 <= i < |s.debts| && OwesKey(s.debts[i], j);
      assert s'.debts[i] == s.debts[i];
    }
    if KeyOwed(s'.debts, j) {
      var i :| 0 <= i < |s'.debts| && OwesKey(s'.debts[i], j);
      assert s'.debts[i] == s.debts[i];
    }
  }

  /** The step in which a job is cancelled. */
  lemma KeyWhenCancelled(cfg: Config, run: seq<Action>, j: nat)
    requires run != []
    requires var s := Exec(cfg, START, run[..|run| - 1]);
             j < |s.db.jobs| && Cancels(s.db, Exec(cfg, START, run).db, j)
    ensures j < |Exec(cfg, START, run).db.jobs| && KeyTold(cfg, run, Exec(cfg, START, run), j)
  {
    hide Apply, Exec, Inv, Extra, Cancels;
    var n := |run| - 1;
    var before, a := run[..n], run[n];
    var s, s' := Exec(cfg, START, before), Exec(cfg, START, run);
    ExecLast(cfg, run);
    Reachable(cfg, before);
    Reachable(cfg, run);
    NotCancelledYet(s, s', j);
    NoKeyYet(cfg, before, j);
    NoOffDebtYet(cfg, s, j);
    OwersAreOff(cfg, s', j);
    Announces(cfg, s, a);
    TimesGrow(s.db.announced, Extra(cfg, s, a), j, NoteCancelled);
    KeySource(cfg, s, a, j);
    ReaperCancelledNow(cfg, run, j);
    CancelledStep(cfg, run, j);
    CancelledBy(cfg, s, a, j);
    if a.ACancelAct? {
      assert OwesKey(s'.debts[|s.debts|], j);
    } else {
      NewDebts(cfg, s, a);
      forall i | 0 <= i < |s'.debts| ensures !OffDebt(s'.debts[i], j) {
        if i >= |s.debts| { assert CancelsOnRequest(s, s', a, s'.debts[i]); }
      }
    }
  }

  lemma NotCancelledYet(s: State, s': State, j: nat)
    requires Cancels(s.db, s'.db, j)
    ensures j < |s.db.jobs| && j < |s'.db.jobs| && !s.db.jobs[j].status.Cancelled? && s'.db.jobs[j].status.Cancelled?
  {
  }

  /** Only workers, requests and reapers cancel; a request that does makes exactly one debt, for the key of this job. */
  lemma CancelledBy(cfg: Config, s: State, a: Action, j: nat)
    requires Inv(cfg, s) && j < |s.db.jobs| && Cancels(s.db, Apply(cfg, s, a).db, j)
    ensures a.AWorker? || a.AReapAct? || a.ACancelAct?
    ensures a.ACancelAct? ==>
              && |Apply(cfg, s, a).debts| == |s.debts| + 1 && s.debts <= Apply(cfg, s, a).debts
              && OffDebt(Apply(cfg, s, a).debts[|s.debts|], j) && Apply(cfg, s, a).debts[|s.debts|].note.Due?
  {
    hide WorkerStep, SubmitStep, CancelAct, ReapAct, ExpiryAct, GcAct, Inv;
    if !Acts(s, a) {
      OthersLeaveRows(cfg, s, a);
    } else if a.ASubmitStep? {
      SubmitCancelsNothing(cfg, s, a.i, a.reuse, a.ttl, a.limited, j);
    } else if a.AExpiryAct? || a.AGcAct? {
      SweepCancelsNothing(s, a.i, j);
    } else if a.ACancelAct? {
      CancelledByRequest(s, a.c, j);
    }
  }

  lemma CancelledByRequest(s: State, c: nat, j: nat)
    requires j < |s.db.jobs| && Cancels(s.db, CancelAct(s, c).db, j)
    ensures var debts' := CancelAct(s, c).debts;
            |debts'| == |s.debts| + 1 && s.debts <= debts' && OffDebt(debts'[|s.debts|], j) && debts'[|s.debts|].note.Due?
  {
  }

  /** The late statements of a debt. */
  lemma KeyWhenPaid(cfg: Config, run: seq<Action>, j: nat)
    requires run != [] && (run[|run| - 1].APay? || run[|run| - 1].ADefault?)
    requires j < |Exec(cfg, START, run[..|run| - 1]).db.jobs|
    requires KeyTold(cfg, run[..|run| - 1], Exec(cfg, START, run[..|run| - 1]), j)
    requires Exec(cfg, START, run[..|run| - 1]).db.jobs[j].status.Cancelled?
    ensures j < |Exec(cfg, START, run).db.jobs| && KeyTold(cfg, run, Exec(cfg, START, run), j)
  {
    hide Apply, Exec, Inv, Extra, Cancels, Reaped;
    var n := |run| - 1;
    var before, a := run[..n], run[n];
    var s, s' := Exec(cfg, START, before), Exec(cfg, START, run);
    ExecLast(cfg, run);
    Reachable(cfg, before);
    OwersAreOff(cfg, s, j);
    Announces(cfg, s, a);
    TimesGrow(s.db.announced, Extra(cfg, s, a), j, NoteCancelled);
    KeySource(cfg, s, a, j);
    SameReaped(cfg, run, j);
    SettlementDebts(cfg, s, a);
    if a.i < |s.debts| && s.debts[a.i].job == j {
      NotInOutbox(cfg, s, j);
      assert OwesKey(s.debts[a.i], j) ==> KeyOwed(s.debts, j);
      OnlyOwer(s.debts, s'.debts, a.i, j);
    } else {
      OthersOwe(s.debts, s'.debts, a.i, j);
    }
  }

  /** A settlement touches one debt, which owes its key until the row is written. */
  lemma SettlementDebts(cfg: Config, s: State, a: Action)
    requires Inv(cfg, s) && (a.APay? || a.ADefault?)
    ensures var s' := Apply(cfg, s, a); var i := a.i;
            && s'.db.jobs == s.db.jobs && |s'.debts| == |s.debts|
            && (forall k :: 0 <= k < |s.debts| && k != i ==> s'.debts[k] == s.debts[k])
            && (i < |s.debts| ==>
                  && s'.debts[i].job == s.debts[i].job && s'.debts[i].kind == s.debts[i].kind
                  && (OwesKey(s'.debts[i], s.debts[i].job) <==>
                        OwesKey(s.debts[i], s.debts[i].job) && !(a.APay? && !s.debts[i].event.Due? && s.debts[i].note.Due?)))
  {
    hide Consistent, WorkersOk, TicketsOk, EnvelopesOk, SweepsOk, LapsedOk, SubmitsOk, QuotaOk;
    if a.i < |s.debts| {
      assert DebtOk(s.db, s.debts[a.i]);
    }
  }

  lemma NotInOutbox(cfg: Config, s: State, j: nat)
    requires Inv(cfg, s)
    ensures Times(s.db.announced, j, NoteCancelled) == 0 ==> Note(j, NoteCancelled) !in s.db.notes
  {
    hide WorkersOk, TicketsOk, EnvelopesOk, SweepsOk, LapsedOk, SubmitsOk, QuotaOk, DebtsOk;
    assert Note(j, NoteCancelled) in s.db.announced ==> Note(j, NoteCancelled) in multiset(s.db.announced);
  }

  lemma OnlyOwer(debts: seq<Debt>, debts': seq<Debt>, i: nat, j: nat)
    requires |debts'| == |debts| && i < |debts| && forall k :: 0 <= k < |debts| && k != i ==> debts'[k] == debts[k]
    requires forall k :: 0 <= k < |debts| && OwesKey(debts[k], j) ==> OffDebt(debts[k], j)
    requires forall k, l :: 0 <= k < |debts| && 0 <= l < |debts| && OffDebt(debts[k], j) && OffDebt(debts[l], j) ==> k == l
    ensures OwesKey(debts[i], j) ==> (KeyOwed(debts', j) <==> OwesKey(debts'[i], j))
    ensures !OwesKey(debts[i], j) && !OwesKey(debts'[i], j) ==> (KeyOwed(debts', j) <==> KeyOwed(debts, j))
  {
    if KeyOwed(debts, j) {
      var k :| 0 <= k < |debts| && OwesKey(debts[k], j);
      assert k != i ==> OwesKey(debts'[k], j);
    }
  }

  lemma OthersOwe(debts: seq<Debt>, debts': seq<Debt>, i: nat, j: nat)
    requires |debts'| == |debts| && forall k :: 0 <= k < |debts| && k != i ==> debts'[k] == debts[k]
    requires i < |debts| ==> debts[i].job != j && debts'[i].job == debts[i].job
    ensures KeyOwed(debts', j) <==> KeyOwed(debts, j)
  {
    forall k | 0 <= k < |debts| ensures OwesKey(debts'[k], j) <==> OwesKey(debts[k], j) {
    }
  }

  lemma SameReaped(cfg: Config, run: seq<Action>, j: nat)
    requires run != [] && !run[|run| - 1].AReapAct?
    ensures Reaped(cfg, run, j) <==> Reaped(cfg, run[..|run| - 1], j)
  {
    hide Exec, Apply, Cancels;
    ReaperCancelledNow(cfg, run, j);
  }

  /** Every other step of a cancelled job. */
  lemma KeyOtherwise(cfg: Config, run: seq<Action>, j: nat)
    requires run != [] && !run[|run| - 1].APay? && !run[|run| - 1].ADefault?
    requires var s := Exec(cfg, START, run[..|run| - 1]);
             && j < |s.db.jobs| && s.db.jobs[j].status.Cancelled? && KeyTold(cfg, run[..|run| - 1], s, j)
    requires j < |Exec(cfg, START, run).db.jobs| && Exec(cfg, START, run).db.jobs[j].status.Cancelled?
    ensures KeyTold(cfg, run, Exec(cfg, START, run), j)
  {
    hide Apply, Exec, Inv, Extra, ReaperCancelledAt;
    var n := |run| - 1;
    var before, a := run[..n], run[n];
    var s, s' := Exec(cfg, START, before), Exec(cfg, START, run);
    ExecLast(cfg, run);
    Reachable(cfg, before);
    Announces(cfg, s, a);
    TimesGrow(s.db.announced, Extra(cfg, s, a), j, NoteCancelled);
    KeySource(cfg, s, a, j);
    ReaperCancelledNow(cfg, run, j);
    CancelledStep(cfg, run, j);
    OffDebtsStay(cfg, s, a, j);
    forall i | 0 <= i < |s'.debts| && OffDebt(s'.debts[i], j) ensures i < |s.debts| && OffDebt(s.debts[i], j) {
    }
  }

  lemma KeyBefore(cfg: Config, run: seq<Action>, j: nat)
    requires j < |Exec(cfg, START, run).db.jobs| && !Exec(cfg, START, run).db.jobs[j].status.Cancelled?
    ensures KeyTold(cfg, run, Exec(cfg, START, run), j)
  {
    hide Apply, Exec, Inv, ReaperCancelledAt;
    Reachable(cfg, run);
    NoKeyYet(cfg, run, j);
    NoOffDebtYet(cfg, Exec(cfg, START, run), j);
  }

  lemma {:induction false} KeysAreTold(cfg: Config, run: seq<Action>, j: nat)
    requires j < |Exec(cfg, START, run).db.jobs|
    ensures KeyTold(cfg, run, Exec(cfg, START, run), j)
    decreases |run|
  {
    hide Apply, Exec, Inv, KeyTold, ReaperCancelledAt;
    if run == [] {
      ExecNone(cfg);
    } else if !Exec(cfg, START, run).db.jobs[j].status.Cancelled? {
      KeyBefore(cfg, run, j);
    } else {
      var n := |run| - 1;
      var s := Exec(cfg, START, run[..n]);
      CancelledStep(cfg, run, j);
      if !s.db.jobs[j].status.Cancelled? {
        KeyWhenCancelled(cfg, run, j);
      } else {
        KeysAreTold(cfg, run[..n], j);
        if run[n].APay? || run[n].ADefault? {
          KeyWhenPaid(cfg, run, j);
        } else {
          KeyOtherwise(cfg, run, j);
        }
      }
    }
  }

  /**
   * For every run: a CANCELLED job has its one cancelled key if and only if it was not a reaper
   * that cancelled it, and the request that cancelled it, if one did, has written its outbox row.
   */
  lemma CancelledKeyIffWritten(cfg: Config, run: seq<Action>, j: nat)
    requires j < |Exec(cfg, START, run).db.jobs| && Exec(cfg, START, run).db.jobs[j].status.Cancelled?
    ensures Times(Exec(cfg, START, run).db.announced, j, NoteCancelled)
            == (if Reaped(cfg, run, j) || KeyOwed(Exec(cfg, START, run).debts, j) then 0 else 1)
  {
    hide Apply, Exec;
    KeysAreTold(cfg, run, j);
  }

  lemma ExecNone(cfg: Config)
    ensures Exec(cfg, START, []) == START
  {
  }

  /** What the last action means for job `j`; new jobs are not born cancelled. */
  lemma CancelledStep(cfg: Config, run: seq<Action>, j: nat)
    requires run != [] && j < |Exec(cfg, START, run).db.jobs| && Exec(cfg, START, run).db.jobs[j].status.Cancelled?
    ensures var n := |run| - 1; var s := Exec(cfg, START, run[..n]);
            && j < |s.db.jobs|
            && (Cancels(s.db, Exec(cfg, START, run).db, j) <==> !s.db.jobs[j].status.Cancelled?)
            && (ReaperCancelledAt(cfg, run, n, j) <==> run[n].AReapAct? && Cancels(s.db, Exec(cfg, START, run).db, j))
  {
    hide Apply;
    var n := |run| - 1;
    var s := Exec(cfg, START, run[..n]);
    ExecLast(cfg, run);
    assert run[..n + 1] == run;
    Reachable(cfg, run[..n]);
    if j >= |s.db.jobs| {
      NewJobsPending(cfg, s, run[n], j);
    }
  }

  lemma NewJobsPending(cfg: Config, s: State, a: Action, j: nat)
    requires |s.db.jobs| <= j < |Apply(cfg, s, a).db.jobs|
    ensures Apply(cfg, s, a).db.jobs[j].status.Pending?
  {
    hide WorkerStep, SubmitStep, Reap, CancelAct, ExpiryAct, GcAct;
    if !Acts(s, a) {
      OthersLeaveRows(cfg, s, a);
    } else if a.AWorker? {
      WorkersAddNoJobs(cfg, s, a.w, a.oracle);
    } else if a.ASubmitStep? {
      InsertAddsPending(cfg, s, a.i, a.reuse, a.ttl, a.limited, j);
    } else {
      SystemAddsNoJobs(cfg, s, a);
    }
  }

  lemma WorkersAddNoJobs(cfg: Config, s: State, w: nat, o: Oracle)
    requires w < |s.workers|
    ensures |WorkerStep(cfg, s, w, o).db.jobs| == |s.db.jobs|
  {
    hide ProgressStep, OutputStep, VerdictStep, CheckStep;
    QuietAddNoJobs(s, w, o);
    VerdictsAddNoJobs(cfg, s, w, o.ttl);
  }

  lemma QuietAddNoJobs(s: State, w: nat, o: Oracle)
    requires w < |s.workers|
    ensures |ProgressStep(s, w, o).db.jobs| == |OutputStep(s, w).db.jobs| == |CheckStep(s, w).db.jobs| == |s.db.jobs|
  {
  }

  lemma TerminalAddsNoJobs(db: Db, j: nat, g: nat, status: Status, percent: Option<nat>, ttl: nat)
    requires Verdict(status)
    ensures |TerminalTransition(db, j, g, status, percent, ttl).0.jobs| == |db.jobs|
  {
  }

  lemma VerdictsAddNoJobs(cfg: Config, s: State, w: nat, ttl: nat)
    requires w < |s.workers|
    ensures |VerdictStep(cfg, s, w, ttl).db.jobs| == |s.db.jobs|
  {
    hide TerminalTransition;
    var j, g := s.workers[w].job, s.workers[w].generation;
    TerminalAddsNoJobs(s.db, j, g, Done, Some(100), ttl);
    TerminalAddsNoJobs(s.db, j, g, Cancelled, Some(0), 0);
    TerminalAddsNoJobs(s.db, j, g, Failed, None, 0);
  }

  lemma SystemAddsNoJobs(cfg: Config, s: State, a: Action)
    requires Acts(s, a) && !a.AWorker? && !a.ASubmitStep?
    ensures |Apply(cfg, s, a).db.jobs| == |s.db.jobs|
  {
  }

  lemma InsertAddsPending(cfg: Config, s: State, i: nat, reuse: Option<nat>, ttl: nat, limited: bool, j: nat)
    requires i < |s.submits| && |s.db.jobs| <= j < |SubmitStep(cfg, s, i, reuse, ttl, limited).db.jobs|
    ensures SubmitStep(cfg, s, i, reuse, ttl, limited).db.jobs[j].status.Pending?
  {
  }

  // ---- Dead letters -------------------------------------------------------------------------------------

  /** A worker about to report a dead letter holds the claim its job failed under, and nobody reported it yet. */
  predicate LetterDue(db: Db, wk: Worker) {
    wk.pc.AtDeadLetter? ==>
      && wk.job < |db.jobs| && db.jobs[wk.job].status.Failed?
      && wk.generation > 0 && db.jobs[wk.job].generation == wk.generation
      && Times(db.announced, wk.job, NoteDeadLetter) == 0
  }

  ghost predicate LettersOk(s: State) {
    && (forall j :: 0 <= j < |s.db.jobs| ==> Times(s.db.announced, j, NoteDeadLetter) <= 1)
    && (forall w :: 0 <= w < |s.workers| ==> LetterDue(s.db, s.workers[w]))
  }

  /** A dead letter is created by the worker it is due from, or with the failure itself. */
  lemma LetterSource(cfg: Config, s: State, a: Action, j: nat)
    requires Inv(cfg, s) && LettersOk(s)
    ensures Times(Extra(cfg, s, a), j, NoteDeadLetter) <= 1
    ensures Times(Extra(cfg, s, a), j, NoteDeadLetter) == 1 ==>
              && j < |s.db.jobs| && Times(s.db.announced, j, NoteDeadLetter) == 0
              && (s.db.jobs[j].status.Failed? ==>
                    a.AWorker? && a.w < |s.workers| && s.workers[a.w].pc.AtDeadLetter? && s.workers[a.w].job == j)
  {
    hide Consistent, TicketsOk, EnvelopesOk, SweepsOk, LapsedOk, SubmitsOk, QuotaOk;
    if a.AWorker? && a.w < |s.workers| {
      assert LetterDue(s.db, s.workers[a.w]);
    } else if a.AReapAct? && a.i < |s.reaps| {
      var item := s.reaps[a.i];
      if Abandoned(s.db, item.job, item.threshold) {
        Unannounced(s.db, item.job, NoteDeadLetter);
      }
    }
  }

  lemma LetterTimes(cfg: Config, s: State, a: Action, j: nat)
    requires Inv(cfg, s) && LettersOk(s)
    ensures var s' := Apply(cfg, s, a);
            && Times(s'.db.announced, j, NoteDeadLetter) == Times(s.db.announced, j, NoteDeadLetter) + Times(Extra(cfg, s, a), j, NoteDeadLetter)
            && Times(s'.db.announced, j, NoteDeadLetter) <= 1
  {
    hide Apply, Extra, Consistent;
    Announces(cfg, s, a);
    TimesGrow(s.db.announced, Extra(cfg, s, a), j, NoteDeadLetter);
    LetterSource(cfg, s, a, j);
    if j >= |s.db.jobs| {
      NoStrayNotes(s.db, j);
    }
  }

  lemma NoStrayNotes(db: Db, j: nat)
    requires Consistent(db) && j >= |db.jobs|
    ensures Times(db.announced, j, NoteDeadLetter) == 0
  {
    assert Note(j, NoteDeadLetter) !in multiset(db.announced);
  }

  /** No two workers owe the letter of one job. */
  lemma OneOwes(s: State, v: nat, w: nat)
    requires WorkersOk(s) && LettersOk(s) && v < |s.workers| && w < |s.workers|
    requires s.workers[v].pc.AtDeadLetter? && s.workers[w].pc.AtDeadLetter? && s.workers[v].job == s.workers[w].job
    ensures v == w
  {
    assert LetterDue(s.db, s.workers[v]) && WorkerOk(s.db, v, s.workers[v]);
    assert LetterDue(s.db, s.workers[w]) && WorkerOk(s.db, w, s.workers[w]);
  }

  /** A worker that did not move stays the only one that owes its letter. */
  lemma LetterStaysDue(cfg: Config, s: State, a: Action, w: nat)
    requires Inv(cfg, s) && LettersOk(s) && w < |s.workers| && s.workers[w].pc.AtDeadLetter?
    requires !(a.AWorker? && a.w == w)
    ensures LetterDue(Apply(cfg, s, a).db, s.workers[w])
  {
    hide Apply, Extra, WorkersOk, Consistent, TicketsOk, EnvelopesOk, SweepsOk, LapsedOk, SubmitsOk, QuotaOk;
    var wk := s.workers[w];
    assert LetterDue(s.db, wk);
    ApplyMoves(cfg, s, a);
    assert RowMoved(cfg, s.db, Apply(cfg, s, a).db, wk.job);
    LetterTimes(cfg, s, a, wk.job);
    LetterSource(cfg, s, a, wk.job);
    forall v: nat | v < |s.workers| && s.workers[v].pc.AtDeadLetter? && s.workers[v].job == wk.job ensures v == w {
      OneOwes(s, v, w);
    }
  }

  /** The step after a committed transient failure is the only way to owe a letter. */
  lemma LetterBecomesDue(cfg: Config, s: State, w: nat, o: Oracle)
    requires Inv(cfg, s) && w < |s.workers| && WorkerStep(cfg, s, w, o).workers[w].pc.AtDeadLetter?
    ensures LetterDue(WorkerStep(cfg, s, w, o).db, WorkerStep(cfg, s, w, o).workers[w])
  {
    hide Consistent, TicketsOk, EnvelopesOk, SweepsOk, LapsedOk, SubmitsOk, QuotaOk, ClaimJob, TerminalTransition,
         RetryTransition;
    var wk := s.workers[w];
    assert WorkerOk(s.db, w, wk);
    OnlyFailuresOwe(cfg, s, w, o);
    FailedRow(s.db, wk.job, wk.generation);
  }

  lemma QuietStepsOweNothing(s: State, w: nat, o: Oracle)
    requires w < |s.workers| && !s.workers[w].pc.AtDeadLetter?
    ensures !ProgressStep(s, w, o).workers[w].pc.AtDeadLetter?
    ensures !CheckStep(s, w).workers[w].pc.AtDeadLetter?
  {
    hide Progress, Heartbeat;
  }

  lemma OutputsOweNothing(s: State, w: nat)
    requires w < |s.workers| && !s.workers[w].pc.AtDeadLetter?
    ensures !OutputStep(s, w).workers[w].pc.AtDeadLetter?
  {
    hide PromoteOutput, DeleteBlob;
  }

  lemma OnlyFailuresOwe(cfg: Config, s: State, w: nat, o: Oracle)
    requires w < |s.workers| && WorkerStep(cfg, s, w, o).workers[w].pc.AtDeadLetter?
    ensures s.workers[w].pc.AtFail? && Fence(s.db, s.workers[w].job, s.workers[w].generation)
    ensures WorkerStep(cfg, s, w, o).db == TerminalTransition(s.db, s.workers[w].job, s.workers[w].generation, Failed, None, 0).0
    ensures WorkerStep(cfg, s, w, o).workers[w] == s.workers[w].(pc := AtDeadLetter)
  {
    hide ClaimJob, RetryTransition, ProgressStep, CheckStep, OutputStep, Conclude, PurgeExpiredOutput;
    if !s.workers[w].pc.AtDeadLetter? {
      QuietStepsOweNothing(s, w, o);
      OutputsOweNothing(s, w);
    }
  }

  lemma FailedRow(db: Db, j: nat, g: nat)
    requires Consistent(db) && Fence(db, j, g)
    ensures var db' := TerminalTransition(db, j, g, Failed, None, 0).0;
            && j < |db'.jobs| && db'.jobs[j].status.Failed? && db'.jobs[j].generation == g
            && Times(db'.announced, j, NoteDeadLetter) == 0
  {
    VerdictCreates(db, j, g, Failed, None, 0);
    Unannounced(db, j, NoteDeadLetter);
    TimesGrow(db.announced, [Note(j, NoteFailed)], j, NoteDeadLetter);
  }

  /** Which workers an action moves, and that only a worker's own step makes it owe a letter. */
  lemma OwingWorkers(cfg: Config, s: State, a: Action, w: nat)
    requires w < |Apply(cfg, s, a).workers| && Apply(cfg, s, a).workers[w].pc.AtDeadLetter?
    ensures w < |s.workers|
    ensures (a.AWorker? && a.w == w) || Apply(cfg, s, a).workers[w] == s.workers[w]
  {
    hide WorkerStep, SubmitStep;
    if a.AWorker? && a.w < |s.workers| {
      StepFrame(cfg, s, a.w, a.oracle);
    } else if a.ASubmitStep? && a.i < |s.submits| {
      SubmitWorkers(cfg, s, a.i, a.reuse, a.ttl, a.limited);
    }
  }

  lemma SubmitWorkers(cfg: Config, s: State, i: nat, reuse: Option<nat>, ttl: nat, limited: bool)
    requires i < |s.submits|
    ensures SubmitStep(cfg, s, i, reuse, ttl, limited).workers == s.workers
  {
  }

  lemma LettersKeep(cfg: Config, s: State, a: Action)
    requires Inv(cfg, s) && LettersOk(s)
    ensures LettersOk(Apply(cfg, s, a))
  {
    hide Apply, Inv, WorkerStep;
    var s' := Apply(cfg, s, a);
    forall j | 0 <= j < |s'.db.jobs| ensures Times(s'.db.announced, j, NoteDeadLetter) <= 1 {
      LetterTimes(cfg, s, a, j);
    }
    forall w | 0 <= w < |s'.workers| ensures LetterDue(s'.db, s'.workers[w]) {
      if s'.workers[w].pc.AtDeadLetter? {
        OwingWorkers(cfg, s, a, w);
        if a.AWorker? && a.w == w {
          WorkerApplies(cfg, s, w, a.oracle);
          LetterBecomesDue(cfg, s, w, a.oracle);
        } else {
          LetterStaysDue(cfg, s, a, w);
        }
      }
    }
  }

  lemma WorkerApplies(cfg: Config, s: State, w: nat, o: Oracle)
    requires w < |s.workers|
    ensures Apply(cfg, s, AWorker(w, o)) == WorkerStep(cfg, s, w, o)
  {
    hide WorkerStep;
  }

  /** At most one dead letter is ever created per job, although finished outbox rows are purged. */
  lemma {:induction false} OneDeadLetter(cfg: Config, run: seq<Action>)
    ensures LettersOk(Exec(cfg, START, run))
    decreases |run|
  {
    hide Apply;
    if run != [] {
      OneDeadLetter(cfg, run[..|run| - 1]);
      Reachable(cfg, run[..|run| - 1]);
      LettersKeep(cfg, Exec(cfg, START, run[..|run| - 1]), run[|run| - 1]);
    }
  }

  /**
   * For every run, and for all time, purges of outbox rows included: one done key exactly if the
   * job is DONE or EXPIRED, one failed key exactly if it is FAILED, one cancelled key exactly if it
   * is CANCELLED, not by a reaper, and the request that cancelled it owes no outbox row, and at most
   * one dead letter, only if it is FAILED.
   */
  lemma OneAnnouncement(cfg: Config, run: seq<Action>, j: nat)
    requires j < |Exec(cfg, START, run).db.jobs|
    ensures var db := Exec(cfg, START, run).db;
            var status := db.jobs[j].status;
            && Times(db.announced, j, NoteDone) == (if status.Done? || status.Expired? then 1 else 0)
            && Times(db.announced, j, NoteFailed) == (if status.Failed? then 1 else 0)
            && Times(db.announced, j, NoteCancelled)
               == (if status.Cancelled? && !Reaped(cfg, run, j) && !KeyOwed(Exec(cfg, START, run).debts, j) then 1 else 0)
            && Times(db.announced, j, NoteDeadLetter) <= (if status.Failed? then 1 else 0)
  {
    hide Apply, Exec, Reaped, KeyOwed;
    Reachable(cfg, run);
    var db := Exec(cfg, START, run).db;
    assert NotesOfRow(db.announced, j, db.jobs[j].status);
    OneDeadLetter(cfg, run);
    KeysAreTold(cfg, run, j);
  }
}
