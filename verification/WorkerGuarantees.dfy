/**
 * What the fence promises about workers: a superseded worker is harmless for ever, a punctual
 * one is never superseded, and no waiting job is forgotten.
 */
module WorkerGuarantees {
  import opened Common
  import opened Jobs
  import opened Database
  import opened DatabaseInvariant
  import opened Protocol
  import opened ProtocolInvariant
  import opened WorkerSafety
  import opened SystemSafety
  import opened Runs
  import opened RowHistory
  import opened JobGuarantees

  // ---- A superseded worker ----------------------------------------------------------------------------

  /** The worker made a claim, but the row is no longer PROCESSING under its generation. */
  predicate Superseded?(s: State, w: nat) {
    && w < |s.workers|
    && s.workers[w].generation > 0
    && !Fence(s.db, s.workers[w].job, s.workers[w].generation)
    && !s.workers[w].pc.AtDeadLetter?
  }

  predicate ActsAs(a: Action, w: nat) {
    a == ACrash(w) || (a.AWorker? && a.w == w) || (a.ARaise? && a.w == w)
  }

  /** The tables differ at most in worker `w`'s own blob. */
  ghost predicate OwnBlobOnly(db: Db, db': Db, w: nat, wk: Worker) {
    || db' == db
    || db' == PersistBlob(db, Conversion(wk.job, wk.generation, w))
    || exists b :: OwnBlob(db, w, wk, b) && Unlinked(db, b) && db' == db.(blobs := db.blobs - {b}, bytes := db.bytes - {b})
  }

  /** The progress cache differs at most in job `j`. */
  ghost predicate CacheOnly(cache: map<nat, nat>, cache': map<nat, nat>, j: nat) {
    forall k :: k != j ==> (k in cache' <==> k in cache) && (k in cache ==> cache'[k] == cache[k])
  }

  /**
   * All that a superseded worker can still touch: its own unpromoted blob, its message and its own
   * job's entry in the progress cache. Jobs, events, ledger, outbox and decisions stay as they are.
   */
  ghost predicate Harmless(s: State, s': State, w: nat) {
    && OnlyWorker(s, s', w) && s'.debts == s.debts && CacheOnly(s.cache, s'.cache, s.workers[w].job)
    && OwnBlobOnly(s.db, s'.db, w, s.workers[w])
    && |s'.messages| == |s.messages|
    && (forall m :: 0 <= m < |s.messages| && m != s.workers[w].message ==> s'.messages[m] == s.messages[m])
  }

  lemma HarmlessMeans(s: State, s': State, w: nat)
    requires w < |s.workers| && Harmless(s, s', w)
    ensures s'.db.jobs == s.db.jobs && s'.db.events == s.db.events && s'.db.ledger == s.db.ledger
    ensures s'.db.announced == s.db.announced && s'.db.notes == s.db.notes
    ensures s'.db.allowed == s.db.allowed && s'.db.denied == s.db.denied
    ensures forall b: nat ::
              b < |s.db.made| && s.db.made[b].maker != Conversion(s.workers[w].job, s.workers[w].generation, w) ==>
                (b in s'.db.blobs <==> b in s.db.blobs) && (b in s'.db.bytes <==> b in s.db.bytes)
  {
  }

  /** A step of worker `w` keeps its identity. */
  predicate SameGrant(wk: Worker, wk': Worker) {
    wk'.message == wk.message && wk'.job == wk.job && wk'.generation == wk.generation
  }

  /** A fenced write of a superseded worker selects no row. */
  lemma FencedWritesNothing(db: Db, j: nat, g: nat, percent: nat, b: nat, status: Status, final: Option<nat>, ttl: nat)
    requires !Fence(db, j, g) && Verdict(status)
    ensures Progress(db, j, g, percent) == db && Heartbeat(db, j, g) == db
    ensures PromoteOutput(db, j, g, b) == (db, false)
    ensures RetryTransition(db, j, g, false) == (db, false)
    ensures TerminalTransition(db, j, g, status, final, ttl) == (db, false)
  {
  }

  lemma SupersededOutput(s: State, w: nat)
    requires Superseded?(s, w) && WorkerOk(s.db, w, s.workers[w])
    ensures var s' := OutputStep(s, w);
            Harmless(s, s', w) && SameGrant(s.workers[w], s'.workers[w]) && !s'.workers[w].pc.AtDeadLetter?
  {
    var wk := s.workers[w];
    match wk.pc {
      case AtPromote(b) => FencedWritesNothing(s.db, wk.job, wk.generation, 0, b, Done, None, 0);
      case AtDiscard(b, _) => DeleteUnlinked(s.db, b);
      case _ =>
    }
  }

  lemma SupersededProgress(s: State, w: nat, o: Oracle)
    requires Superseded?(s, w)
    ensures var s' := ProgressStep(s, w, o);
            Harmless(s, s', w) && SameGrant(s.workers[w], s'.workers[w]) && !s'.workers[w].pc.AtDeadLetter?
  {
  }

  lemma SupersededVerdict(cfg: Config, s: State, w: nat, ttl: nat)
    requires Superseded?(s, w) && WorkerOk(s.db, w, s.workers[w])
    ensures var s' := VerdictStep(cfg, s, w, ttl);
            Harmless(s, s', w) && SameGrant(s.workers[w], s'.workers[w]) && !s'.workers[w].pc.AtDeadLetter?
  {
  }

  lemma SupersededStep(cfg: Config, s: State, w: nat, o: Oracle)
    requires Superseded?(s, w) && WorkerOk(s.db, w, s.workers[w])
    ensures var s' := WorkerStep(cfg, s, w, o);
            Harmless(s, s', w) && SameGrant(s.workers[w], s'.workers[w]) && !s'.workers[w].pc.AtDeadLetter?
  {
    SupersededOutput(s, w);
    SupersededProgress(s, w, o);
    SupersededVerdict(cfg, s, w, o.ttl);
  }

  lemma SupersededRaise(s: State, w: nat, kind: ErrorKind)
    requires Superseded?(s, w)
    ensures var s' := WorkerRaise(s, w, kind);
            Harmless(s, s', w) && SameGrant(s.workers[w], s'.workers[w]) && !s'.workers[w].pc.AtDeadLetter?
  {
  }

  /**
   * No step of a superseded worker changes a job, the ledger, the event log, the outbox, a decision, or
   * another job's entry of the progress cache.
   */
  lemma SupersededIsHarmless(cfg: Config, s: State, w: nat, a: Action)
    requires Inv(cfg, s) && Superseded?(s, w) && ActsAs(a, w)
    ensures Harmless(s, Apply(cfg, s, a), w) && Superseded?(Apply(cfg, s, a), w)
  {
    assert WorkerOk(s.db, w, s.workers[w]);
    if a.AWorker? {
      SupersededStep(cfg, s, w, a.oracle);
    } else if a.ARaise? {
      SupersededRaise(s, w, a.kind);
    }
    HarmlessMeans(s, Apply(cfg, s, a), w);
  }

  /**
   * The one write left to a worker that gave up its claim itself: after a final transient failure
   * it adds its own job's dead letter to the log and the outbox, nothing else, and is superseded.
   */
  lemma LastLetterIsOwn(cfg: Config, s: State, w: nat, a: Action)
    requires Inv(cfg, s) && w < |s.workers| && s.workers[w].pc.AtDeadLetter? && ActsAs(a, w)
    ensures var s' := Apply(cfg, s, a); var j := s.workers[w].job;
            && OnlyWorker(s, s', w) && Superseded?(s', w) && j < |s.db.jobs| && s.db.jobs[j].status.Failed?
            && s'.db == s.db.(events := s'.db.events, notes := s'.db.notes, announced := s'.db.announced)
            && s.db.events <= s'.db.events <= s.db.events + [JobEvent(j, DeadLettered)]
            && s.db.announced <= s'.db.announced <= s.db.announced + [Note(j, NoteDeadLetter)]
            && s.db.notes <= s'.db.notes <= s.db.notes + {Note(j, NoteDeadLetter)}
            && s'.debts == s.debts && s'.cache == s.cache
  {
    hide Consistent, TicketsOk, EnvelopesOk, SweepsOk, LapsedOk, SubmitsOk, QuotaOk, ProgressStep, OutputStep,
         CheckStep, ClaimStep;
    assert WorkerOk(s.db, w, s.workers[w]);
  }

  /**
   * What a debt still writes, whoever made it and whatever became of the job since: its own event,
   * or the cancelled key of its job, which is CANCELLED; and a retried job's message gets on its way.
   */
  lemma PaymentIsOwn(cfg: Config, s: State, i: nat)
    requires Inv(cfg, s) && i < |s.debts|
    ensures var d, s' := s.debts[i], Pay(s, i);
            && s' == s.(db := s'.db, debts := s'.debts, messages := s'.messages)
            && s'.db == s.db.(events := s'.db.events, notes := s'.db.notes, announced := s'.db.announced)
            && s'.db.events == s.db.events + (if d.event.Due? then [JobEvent(d.job, d.kind)] else [])
            && s.db.announced <= s'.db.announced <= s.db.announced + [Note(d.job, NoteCancelled)]
            && (s'.db.announced != s.db.announced ==> s.db.jobs[d.job].status.Cancelled?)
            && |s'.messages| == |s.messages|
            && (forall m :: 0 <= m < |s.messages| && s'.messages[m] != s.messages[m] ==>
                  d.message == Some(m) && s'.messages[m] == s.messages[m].(place := Owed))
  {
    hide Consistent, WorkersOk, TicketsOk, EnvelopesOk, SweepsOk, LapsedOk, SubmitsOk, QuotaOk;
    assert DebtOk(s.db, s.debts[i]);
    assert s.db.events + [] == s.db.events;
  }

  // ---- The progress cache -------------------------------------------------------------------------------

  /** What a worker's step reports, if it does. */
  function Reported(pc: Pc, o: Oracle): Option<nat> {
    match pc
    case AtScan => Some(5)
    case AtConvert => o.report
    case AtReportPromote => if o.report.Some? then Some(96) else None
    case _ => None
  }

  /** A worker writes the cache only when it reports, and then only its own job's entry, current claim or not. */
  lemma CacheWrites(cfg: Config, s: State, w: nat, o: Oracle)
    requires w < |s.workers|
    ensures var reported := Reported(s.workers[w].pc, o);
            WorkerStep(cfg, s, w, o).cache
            == if reported.Some? then s.cache[s.workers[w].job := Clamp(reported.value)] else s.cache
  {
    hide ClaimJob, Progress, Heartbeat, PromoteOutput, DeleteBlob, TerminalTransition, RetryTransition;
  }

  /** After a report the cache shows the row's percentage exactly if the claim is current, or both coincide anyway. */
  lemma CacheShowsRowIff(s: State, w: nat, percent: nat, pc: Pc)
    requires w < |s.workers| && s.workers[w].job < |s.db.jobs|
    ensures var j := s.workers[w].job; var s' := Report(s, w, percent, pc);
            && j in s'.cache && j < |s'.db.jobs|
            && (s'.cache[j] == s'.db.jobs[j].percent <==>
                  Fence(s.db, j, s.workers[w].generation) || s.db.jobs[j].percent == Clamp(percent))
  {
  }

  lemma SubmitFrame(cfg: Config, s: State, i: nat, reuse: Option<nat>, ttl: nat, limited: bool)
    requires i < |s.submits|
    ensures SubmitStep(cfg, s, i, reuse, ttl, limited).workers == s.workers
  {
  }

  /** Only the worker itself moves its program counter. */
  lemma OthersLeaveAlone(cfg: Config, s: State, w: nat, a: Action)
    requires w < |s.workers| && !ActsAs(a, w)
    ensures w < |Apply(cfg, s, a).workers| && Apply(cfg, s, a).workers[w] == s.workers[w]
  {
    if a.AWorker? && a.w < |s.workers| {
      StepFrame(cfg, s, a.w, a.oracle);
    } else if a.ASubmitStep? && a.i < |s.submits| {
      SubmitFrame(cfg, s, a.i, a.reuse, a.ttl, a.limited);
    }
  }

  /** Once superseded, always superseded: every later step of the worker is harmless, too. */
  lemma {:induction false} SupersededForever(cfg: Config, s: State, run: seq<Action>, w: nat)
    requires Inv(cfg, s) && Superseded?(s, w)
    ensures Superseded?(Exec(cfg, s, run), w)
    decreases |run|
  {
    hide Apply;
    if run != [] {
      var mid, a := Exec(cfg, s, run[..|run| - 1]), run[|run| - 1];
      SupersededForever(cfg, s, run[..|run| - 1], w);
      RunKeeps(cfg, s, run[..|run| - 1]);
      if ActsAs(a, w) {
        SupersededIsHarmless(cfg, mid, w, a);
      } else {
        var wk := mid.workers[w];
        OthersLeaveAlone(cfg, mid, w, a);
        ApplyMoves(cfg, mid, a);
        assert WorkerOk(mid.db, w, wk);
        assert RowMoved(cfg, mid.db, Apply(cfg, mid, a).db, wk.job);
      }
    }
  }

  // ---- A punctual worker --------------------------------------------------------------------------

  predicate Holds(s: State, j: nat, g: nat, w: nat) {
    Fence(s.db, j, g) && s.db.jobs[j].worker == Some(w)
  }

  predicate SameClaim(r: Job, r': Job) {
    r'.status == r.status && r'.generation == r.generation && r'.worker == r.worker
  }

  /** Another worker's claim attempt needs a stale heartbeat. */
  lemma ClaimRespects(db: Db, j: nat, k: nat, w: nat)
    requires Consistent(db) && j < |db.jobs| && db.jobs[j].status.Processing?
    requires !Abandoned(db, j, db.now - STALE_PROCESSING_AFTER)
    ensures j < |ClaimJob(db, k, w).0.jobs| && ClaimJob(db, k, w).0.jobs[j] == db.jobs[j]
  {
  }

  /** Past its claim, a worker writes only to the row its token selects. */
  lemma ElsewhereUntouched(db: Db, k: nat, g: nat, j: nat, percent: nat, status: Status, final: Option<nat>, ttl: nat)
    requires Verdict(status) && j < |db.jobs| && (k == j ==> g != db.jobs[j].generation)
    ensures |Progress(db, k, g, percent).jobs| == |Heartbeat(db, k, g).jobs| == |db.jobs|
    ensures Progress(db, k, g, percent).jobs[j] == Heartbeat(db, k, g).jobs[j] == db.jobs[j]
    ensures |RetryTransition(db, k, g, false).0.jobs| == |TerminalTransition(db, k, g, status, final, ttl).0.jobs| == |db.jobs|
    ensures RetryTransition(db, k, g, false).0.jobs[j] == TerminalTransition(db, k, g, status, final, ttl).0.jobs[j] == db.jobs[j]
  {
  }

  lemma OutsiderProgress(s: State, k: nat, o: Oracle, j: nat)
    requires k < |s.workers| && j < |s.db.jobs|
    requires s.workers[k].job == j ==> s.workers[k].generation != s.db.jobs[j].generation
    ensures j < |ProgressStep(s, k, o).db.jobs| && SameClaim(s.db.jobs[j], ProgressStep(s, k, o).db.jobs[j])
  {
    var wk := s.workers[k];
    forall percent: nat
      ensures |Progress(s.db, wk.job, wk.generation, percent).jobs| == |s.db.jobs|
      ensures Progress(s.db, wk.job, wk.generation, percent).jobs[j] == s.db.jobs[j]
    {
      ElsewhereUntouched(s.db, wk.job, wk.generation, j, percent, Done, None, 0);
    }
    ElsewhereUntouched(s.db, wk.job, wk.generation, j, 0, Done, None, 0);
  }

  lemma OutsiderOutput(s: State, k: nat, j: nat)
    requires k < |s.workers| && j < |s.db.jobs|
    requires s.workers[k].job == j ==> s.workers[k].generation != s.db.jobs[j].generation
    ensures j < |OutputStep(s, k).db.jobs| && SameClaim(s.db.jobs[j], OutputStep(s, k).db.jobs[j])
  {
  }

  lemma OutsiderConclude(s: State, k: nat, j: nat, status: Status, final: Option<nat>, ttl: nat, deadLetter: bool)
    requires k < |s.workers| && j < |s.db.jobs| && Verdict(status)
    requires s.workers[k].job == j ==> s.workers[k].generation != s.db.jobs[j].generation
    ensures var s' := ConcludeStep(s, k, status, final, ttl, deadLetter); j < |s'.db.jobs| && s'.db.jobs[j] == s.db.jobs[j]
  {
    ElsewhereUntouched(s.db, s.workers[k].job, s.workers[k].generation, j, 0, status, final, ttl);
  }

  lemma OutsiderVerdict(cfg: Config, s: State, k: nat, ttl: nat, j: nat)
    requires k < |s.workers| && j < |s.db.jobs| && !s.workers[k].flagged
    requires s.workers[k].job == j ==> s.workers[k].generation != s.db.jobs[j].generation
    ensures j < |VerdictStep(cfg, s, k, ttl).db.jobs| && VerdictStep(cfg, s, k, ttl).db.jobs[j] == s.db.jobs[j]
  {
    var wk := s.workers[k];
    match wk.pc {
      case AtDone(_) => OutsiderConclude(s, k, j, Done, Some(100), ttl, false);
      case AtCancelled => OutsiderConclude(s, k, j, Cancelled, Some(0), 0, false);
      case AtUnsupported => OutsiderConclude(s, k, j, Failed, None, 0, false);
      case AtFail(transient) => OutsiderConclude(s, k, j, Failed, None, 0, transient);
      case AtRetry => ElsewhereUntouched(s.db, wk.job, wk.generation, j, 0, Done, None, 0);
      case _ =>
    }
  }

  /** A claim that never lapsed is neither abandoned now nor matched by an older snapshot of another. */
  lemma NotAbandoned(cfg: Config, s: State, j: nat, g: nat, w: nat)
    requires Inv(cfg, s) && Holds(s, j, g, w) && (j, g) !in s.lapsed
    ensures !Abandoned(s.db, j, s.db.now - STALE_PROCESSING_AFTER)
    ensures s.db.jobs[j].heartbeat.Some? && s.db.jobs[j].generation > 0 && s.db.jobs[j].attempts == g
  {
    hide WorkersOk, TicketsOk, EnvelopesOk, SweepsOk, SubmitsOk, QuotaOk;
    assert LapseSeen(s.db, s.lapsed, j);
    assert RowOk(s.db.now, s.db.made, s.db.blobs, j, s.db.jobs[j]);
  }

  lemma OutsiderRespects(cfg: Config, s: State, k: nat, o: Oracle, j: nat, g: nat, w: nat)
    requires Inv(cfg, s) && Holds(s, j, g, w) && (j, g) !in s.lapsed
    requires k < |s.workers| && k != w
    ensures j < |WorkerStep(cfg, s, k, o).db.jobs| && SameClaim(s.db.jobs[j], WorkerStep(cfg, s, k, o).db.jobs[j])
  {
    hide ProgressStep, OutputStep, VerdictStep, ClaimJob, Consistent, TicketsOk, EnvelopesOk, SweepsOk, LapsedOk,
         SubmitsOk, QuotaOk;
    assert WorkerOk(s.db, k, s.workers[k]);
    NotAbandoned(cfg, s, j, g, w);
    ClaimRespects(s.db, j, s.workers[k].job, k);
    OutsiderProgress(s, k, o, j);
    OutsiderOutput(s, k, j);
    if s.workers[k].generation > 0 {
      OutsiderVerdict(cfg, s, k, o.ttl, j);
    }
  }

  /** A snapshot taken while another claim was stale selects nothing now; one of this claim would mean it lapsed. */
  lemma ReaperRespects(cfg: Config, s: State, i: nat, j: nat, g: nat, w: nat)
    requires Inv(cfg, s) && Holds(s, j, g, w) && (j, g) !in s.lapsed && i < |s.reaps|
    ensures var db' := Reap(cfg, s.db, s.reaps[i]).0; j < |db'.jobs| && SameClaim(s.db.jobs[j], db'.jobs[j])
  {
    hide Consistent, WorkersOk, TicketsOk, EnvelopesOk, LapsedOk, SubmitsOk, QuotaOk;
    var item := s.reaps[i];
    assert ReapOk(s.db, s.lapsed, item);
    NotAbandoned(cfg, s, j, g, w);
  }

  lemma ExpiryRespects(s: State, i: nat, j: nat)
    requires j < |s.db.jobs| && s.db.jobs[j].status.Processing?
    ensures j < |ExpiryAct(s, i).db.jobs| && SameClaim(s.db.jobs[j], ExpiryAct(s, i).db.jobs[j])
  {
  }

  lemma SweepRespects(s: State, i: nat, j: nat)
    requires j < |s.db.jobs| && s.db.jobs[j].status.Processing?
    ensures j < |ExpiryAct(s, i).db.jobs| && SameClaim(s.db.jobs[j], ExpiryAct(s, i).db.jobs[j])
    ensures j < |PurgeAct(s, i).db.jobs| && SameClaim(s.db.jobs[j], PurgeAct(s, i).db.jobs[j])
    ensures j < |GcAct(s, i).db.jobs| && SameClaim(s.db.jobs[j], GcAct(s, i).db.jobs[j])
  {
    hide ExpiryAct;
    ExpiryRespects(s, i, j);
  }

  lemma CancelRespects(s: State, c: nat, j: nat)
    requires j < |s.db.jobs| && s.db.jobs[j].status.Processing?
    ensures j < |CancelAct(s, c).db.jobs| && SameClaim(s.db.jobs[j], CancelAct(s, c).db.jobs[j])
  {
  }

  lemma InsertRespects(s: State, i: nat, b: nat, j: nat)
    requires i < |s.submits| && j < |s.db.jobs|
    ensures j < |InsertStep(s, i, b).db.jobs| && InsertStep(s, i, b).db.jobs[j] == s.db.jobs[j]
  {
  }

  lemma SubmitRespects(cfg: Config, s: State, i: nat, reuse: Option<nat>, ttl: nat, limited: bool, j: nat)
    requires i < |s.submits| && j < |s.db.jobs|
    ensures var s' := SubmitStep(cfg, s, i, reuse, ttl, limited); j < |s'.db.jobs| && SameClaim(s.db.jobs[j], s'.db.jobs[j])
  {
    var pc := s.submits[i].pc;
    if pc.Inserting? {
      InsertRespects(s, i, pc.blob, j);
    } else if pc.Looking? || pc.Admitting? {
      assert SubmitStep(cfg, s, i, reuse, ttl, limited).db == s.db;
    }
  }

  /**
   * While a claim has never been stale, nobody but its holder ends it: no takeover, no requeue,
   * no abandonment, not even by a sweep whose snapshot is older.
   */
  lemma LiveClaimIsKept(cfg: Config, s: State, a: Action, j: nat, g: nat, w: nat)
    requires Inv(cfg, s) && Holds(s, j, g, w) && (j, g) !in s.lapsed && !ActsAs(a, w)
    ensures Holds(Apply(cfg, s, a), j, g, w)
  {
    hide Inv, WorkerStep, SubmitStep, Reap, CancelAct, ExpiryAct, PurgeAct, GcAct;
    if !Acts(s, a) {
      OthersLeaveRows(cfg, s, a);
    } else if a.AWorker? {
      OutsiderRespects(cfg, s, a.w, a.oracle, j, g, w);
    } else if a.AReapAct? {
      ReaperRespects(cfg, s, a.i, j, g, w);
    } else if a.ACancelAct? {
      CancelRespects(s, a.c, j);
    } else if a.ASubmitStep? {
      SubmitRespects(cfg, s, a.i, a.reuse, a.ttl, a.limited, j);
    } else {
      SweepRespects(s, a.i, j);
    }
  }

  /** `lapsed` is no more than its meaning: at some time the claim's heartbeat was older than the limit. */
  lemma {:induction false} LapsedWasStale(cfg: Config, run: seq<Action>, j: nat, g: nat)
    requires (j, g) in Exec(cfg, START, run).lapsed
    ensures exists n :: 0 <= n <= |run| && StaleAt(cfg, run[..n], j, g)
    decreases |run|
  {
    hide Apply;
    var before := run[..|run| - 1];
    var s, a := Exec(cfg, START, before), run[|run| - 1];
    if (j, g) in s.lapsed {
      LapsedWasStale(cfg, before, j, g);
      var n :| 0 <= n <= |before| && StaleAt(cfg, before[..n], j, g);
      assert before[..n] == run[..n];
    } else {
      LapsedGrows(cfg, s, a);
      assert run[..|run|] == run && StaleAt(cfg, run[..|run|], j, g);
    }
  }

  predicate StaleAt(cfg: Config, run: seq<Action>, j: nat, g: nat) {
    var db := Exec(cfg, START, run).db;
    Fence(db, j, g) && db.jobs[j].StaleBefore(db.now - STALE_PROCESSING_AFTER)
  }

  lemma LapsedGrows(cfg: Config, s: State, a: Action)
    ensures var s' := Apply(cfg, s, a);
            forall j, g :: (j, g) in s'.lapsed && (j, g) !in s.lapsed ==>
              Fence(s'.db, j, g) && s'.db.jobs[j].StaleBefore(s'.db.now - STALE_PROCESSING_AFTER)
  {
    hide WorkerStep, SubmitStep, WorkerRaise, SubmitFault, ReapAct, CancelAct, ExpiryAct, PurgeAct, GcAct, Pay, Default,
         ReapSnapshot, ExpirySnapshot, PurgeSnapshot, GcSnapshot;
    if a.AWorker? && a.w < |s.workers| {
      StepFrame(cfg, s, a.w, a.oracle);
    } else if a.ASubmitStep? && a.i < |s.submits| {
      SubmitLapsed(cfg, s, a.i, a.reuse, a.ttl, a.limited);
    } else if !a.ATick? {
      OthersLapseNothing(cfg, s, a);
    }
  }

  lemma OthersLapseNothing(cfg: Config, s: State, a: Action)
    requires !a.ATick? && !(a.AWorker? && a.w < |s.workers|) && !(a.ASubmitStep? && a.i < |s.submits|)
    ensures Apply(cfg, s, a).lapsed == s.lapsed
  {
    hide Stale, PurgeDue, Collectable, Abandoned, Reap;
  }

  lemma SubmitLapsed(cfg: Config, s: State, i: nat, reuse: Option<nat>, ttl: nat, limited: bool)
    requires i < |s.submits|
    ensures SubmitStep(cfg, s, i, reuse, ttl, limited).lapsed == s.lapsed
  {
  }

  predicate HeldAfter(cfg: Config, run: seq<Action>, n: nat, j: nat, g: nat, w: nat)
    requires n <= |run|
  {
    Holds(Exec(cfg, START, run[..n]), j, g, w)
  }

  /** The claim was given up by the worker itself, in its `n`th action of the run. */
  predicate GivenUp(cfg: Config, run: seq<Action>, n: nat, j: nat, g: nat, w: nat)
    requires n < |run|
  {
    HeldAfter(cfg, run, n, j, g, w) && !HeldAfter(cfg, run, n + 1, j, g, w) && ActsAs(run[n], w)
  }

  /** While punctual, only the worker's own action can end the claim. */
  lemma PunctualStep(cfg: Config, before: seq<Action>, a: Action, j: nat, g: nat, w: nat)
    requires Holds(Exec(cfg, START, before), j, g, w) && !ActsAs(a, w)
    requires forall n :: 0 <= n <= |before| ==> !StaleAt(cfg, before[..n], j, g)
    ensures Holds(Apply(cfg, Exec(cfg, START, before), a), j, g, w)
  {
    hide Apply;
    Reachable(cfg, before);
    if (j, g) in Exec(cfg, START, before).lapsed {
      LapsedWasStale(cfg, before, j, g);
    }
    LiveClaimIsKept(cfg, Exec(cfg, START, before), a, j, g, w);
  }

  lemma NextHeld(cfg: Config, run: seq<Action>, n: nat, j: nat, g: nat, w: nat)
    requires n < |run|
    ensures HeldAfter(cfg, run, n + 1, j, g, w) <==> Holds(Apply(cfg, Exec(cfg, START, run[..n]), run[n]), j, g, w)
  {
    hide Apply, Holds;
    assert run[..n + 1][..n] == run[..n];
  }

  /** By the `n`th action of the run the claim had been stale at some time. */
  ghost predicate StaleBy(cfg: Config, run: seq<Action>, n: nat, j: nat, g: nat)
    requires n <= |run|
  {
    exists k :: 0 <= k <= n && StaleAt(cfg, run[..k], j, g)
  }

  /** While the claim was held, it was given up by the worker, or its heartbeat had grown stale. */
  ghost predicate Ends(cfg: Config, run: seq<Action>, n: nat, j: nat, g: nat, w: nat)
    requires n < |run|
  {
    HeldAfter(cfg, run, n, j, g, w) && (GivenUp(cfg, run, n, j, g, w) || StaleBy(cfg, run, n, j, g))
  }

  /** A worker keeps its claim until it gives it up itself or has once let its heartbeat grow stale. */
  lemma {:induction false} PunctualWorkerKeepsClaim(cfg: Config, run: seq<Action>, start: nat, end: nat, j: nat, g: nat, w: nat)
    requires start <= end <= |run| && HeldAfter(cfg, run, start, j, g, w)
    ensures HeldAfter(cfg, run, end, j, g, w) || exists n :: start <= n < end && Ends(cfg, run, n, j, g, w)
    decreases end
  {
    hide Exec, Apply, StaleAt, Holds;
    if start < end {
      PunctualWorkerKeepsClaim(cfg, run, start, end - 1, j, g, w);
      if HeldAfter(cfg, run, end - 1, j, g, w) && !StaleBy(cfg, run, end - 1, j, g) {
        if !ActsAs(run[end - 1], w) {
          var before := run[..end - 1];
          forall n | 0 <= n <= |before| ensures !StaleAt(cfg, before[..n], j, g) {
            assert before[..n] == run[..n];
          }
          PunctualStep(cfg, before, run[end - 1], j, g, w);
          NextHeld(cfg, run, end - 1, j, g, w);
        } else {
          assert HeldAfter(cfg, run, end, j, g, w) || GivenUp(cfg, run, end - 1, j, g, w);
        }
      }
      assert HeldAfter(cfg, run, end, j, g, w) || !HeldAfter(cfg, run, end - 1, j, g, w) || Ends(cfg, run, end - 1, j, g, w);
    }
  }

  /** A fenced heartbeat or progress write keeps takeover and requeueing off for exactly 600 seconds. */
  lemma BeatBuysTime(s: State, j: nat, g: nat, percent: nat, d: nat)
    requires Fence(s.db, j, g)
    ensures var beaten, reported := Tick(s.(db := Heartbeat(s.db, j, g)), d).db, Tick(s.(db := Progress(s.db, j, g, percent)), d).db;
            && Fence(beaten, j, g) && Fence(reported, j, g)
            && (Claimable(beaten, j) <==> d > 600 && !s.db.jobs[j].cancelRequested)
            && (Claimable(reported, j) <==> d > 600 && !s.db.jobs[j].cancelRequested)
            && (Abandoned(beaten, j, beaten.now - STALE_PROCESSING_AFTER) <==> d > 600)
            && (Abandoned(reported, j, reported.now - STALE_PROCESSING_AFTER) <==> d > 600)
  {
  }

  // ---- No job is forgotten ------------------------------------------------------------------------------

  /** The action makes the broker lose a message: a crash before the dispatch or its event, or `claim_job` raising. */
  predicate Loses(s: State, a: Action) {
    a.ALoseDispatch? || a.ADefault? || (a.ARaise? && a.w < |s.workers| && s.workers[a.w].pc.AtClaim?)
  }

  predicate Lossless(cfg: Config, run: seq<Action>) {
    forall n :: 0 <= n < |run| ==> !Loses(Exec(cfg, START, run[..n]), run[n])
  }

  predicate NothingLost(messages: seq<Message>) {
    forall m :: 0 <= m < |messages| ==> !messages[m].place.Lost?
  }

  lemma WorkerMessages(cfg: Config, s: State, w: nat, o: Oracle)
    requires w < |s.workers|
    ensures var s' := WorkerStep(cfg, s, w, o);
            NothingLost(s.messages) ==> NothingLost(s'.messages)
  {
    var pc := s.workers[w].pc;
    if !pc.AtClaim? && !pc.AtExit? {
      assert NothingLost(s.messages) ==> NothingLost(VerdictStep(cfg, s, w, o.ttl).messages);
      assert ProgressStep(s, w, o).messages == CheckStep(s, w).messages == OutputStep(s, w).messages == s.messages;
    }
  }

  lemma SubmitMessages(cfg: Config, s: State, i: nat, reuse: Option<nat>, ttl: nat, limited: bool)
    requires i < |s.submits|
    ensures var s' := SubmitStep(cfg, s, i, reuse, ttl, limited);
            NothingLost(s.messages) ==> NothingLost(s'.messages)
  {
    if s.submits[i].pc.Inserting? {
      assert NothingLost(s.messages) ==> NothingLost(InsertStep(s, i, s.submits[i].pc.blob).messages);
    }
  }

  lemma StepLosesNothing(cfg: Config, s: State, a: Action)
    requires NothingLost(s.messages) && !Loses(s, a)
    ensures NothingLost(Apply(cfg, s, a).messages)
  {
    if a.AWorker? && a.w < |s.workers| {
      WorkerMessages(cfg, s, a.w, a.oracle);
    } else if a.ARaise? && a.w < |s.workers| {
      assert WorkerRaise(s, a.w, a.kind).messages == s.messages;
    } else if a.ASubmitStep? && a.i < |s.submits| {
      SubmitMessages(cfg, s, a.i, a.reuse, a.ttl, a.limited);
    }
  }

  lemma {:induction false} LosslessRun(cfg: Config, run: seq<Action>)
    requires Lossless(cfg, run)
    ensures NothingLost(Exec(cfg, START, run).messages)
    decreases |run|
  {
    hide Apply;
    if run != [] {
      var before := run[..|run| - 1];
      forall n | 0 <= n < |before| ensures !Loses(Exec(cfg, START, before[..n]), before[n]) {
        assert before[..n] == run[..n];
      }
      LosslessRun(cfg, before);
      StepLosesNothing(cfg, Exec(cfg, START, before), run[|run| - 1]);
    }
  }

  /** An unsent message waits for an event that somebody still has to write. */
  predicate Backed(debts: seq<Debt>, m: nat) {
    exists i :: 0 <= i < |debts| && debts[i].message == Some(m) && debts[i].event.Due?
  }

  ghost predicate UnsentBacked(s: State) {
    forall m :: 0 <= m < |s.messages| && s.messages[m].place.Unsent? ==> Backed(s.debts, m)
  }

  lemma DebtsGrow(debts: seq<Debt>, debts': seq<Debt>, m: nat)
    requires debts <= debts' && Backed(debts, m)
    ensures Backed(debts', m)
  {
    var i :| 0 <= i < |debts| && debts[i].message == Some(m) && debts[i].event.Due?;
    assert debts'[i] == debts[i];
  }

  /** Only a deferred message is unsent, and only its debt changes that. */
  predicate SendsInOrder(s: State, s': State) {
    && s.debts <= s'.debts && |s.messages| <= |s'.messages|
    && (forall m :: 0 <= m < |s.messages| && s'.messages[m].place.Unsent? ==> s.messages[m].place.Unsent?)
    && (forall m :: |s.messages| <= m < |s'.messages| && s'.messages[m].place.Unsent? ==>
          m == |s.messages| && |s'.debts| == |s.debts| + 1
          && s'.debts[|s.debts|].message == Some(m) && s'.debts[|s.debts|].event.Due?)
  }

  lemma BackingGrows(s: State, s': State)
    requires UnsentBacked(s) && SendsInOrder(s, s')
    ensures UnsentBacked(s')
  {
    forall m: nat | m < |s'.messages| && s'.messages[m].place.Unsent? ensures Backed(s'.debts, m) {
      if m < |s.messages| {
        DebtsGrow(s.debts, s'.debts, m);
      }
    }
  }

  lemma WorkerSends(cfg: Config, s: State, w: nat, o: Oracle)
    requires w < |s.workers|
    ensures SendsInOrder(s, WorkerStep(cfg, s, w, o))
  {
    var pc := s.workers[w].pc;
    if !pc.AtClaim? && !pc.AtExit? {
      assert SendsInOrder(s, VerdictStep(cfg, s, w, o.ttl));
      QuietSends(s, w, o);
    }
  }

  lemma QuietSends(s: State, w: nat, o: Oracle)
    requires w < |s.workers|
    ensures SendsInOrder(s, ProgressStep(s, w, o)) && SendsInOrder(s, CheckStep(s, w)) && SendsInOrder(s, OutputStep(s, w))
  {
    assert ProgressStep(s, w, o).messages == CheckStep(s, w).messages == OutputStep(s, w).messages == s.messages;
  }

  lemma SubmitSends(cfg: Config, s: State, i: nat, reuse: Option<nat>, ttl: nat, limited: bool)
    requires i < |s.submits|
    ensures SendsInOrder(s, SubmitStep(cfg, s, i, reuse, ttl, limited))
  {
    if s.submits[i].pc.Inserting? {
      assert SendsInOrder(s, InsertStep(s, i, s.submits[i].pc.blob));
    }
  }

  lemma SettlementKeepsBacking(s: State, i: nat)
    requires UnsentBacked(s)
    ensures UnsentBacked(Pay(s, i)) && UnsentBacked(Default(s, i))
  {
    forall m: nat | m < |s.messages| && s.messages[m].place.Unsent?
                    && !(i < |s.debts| && s.debts[i].message == Some(m) && s.debts[i].event.Due?)
      ensures Backed(Pay(s, i).debts, m) && Backed(Default(s, i).debts, m)
    {
      var k :| 0 <= k < |s.debts| && s.debts[k].message == Some(m) && s.debts[k].event.Due?;
      assert k != i && Pay(s, i).debts[k] == s.debts[k] && Default(s, i).debts[k] == s.debts[k];
    }
  }

  lemma RaiseSends(s: State, w: nat, kind: ErrorKind)
    requires w < |s.workers|
    ensures SendsInOrder(s, WorkerRaise(s, w, kind))
  {
  }

  lemma ApplySends(cfg: Config, s: State, a: Action)
    requires !a.APay? && !a.ADefault?
    ensures SendsInOrder(s, Apply(cfg, s, a))
  {
    hide WorkerStep, SubmitStep, WorkerRaise, Stale, PurgeDue, Collectable, Abandoned, ExpireOutput, Shred, DeleteBlob, Reap;
    if a.ARaise? && a.w < |s.workers| {
      RaiseSends(s, a.w, a.kind);
    }
    if a.AWorker? && a.w < |s.workers| {
      WorkerSends(cfg, s, a.w, a.oracle);
    } else if a.ASubmitStep? && a.i < |s.submits| {
      SubmitSends(cfg, s, a.i, a.reuse, a.ttl, a.limited);
    }
  }

  lemma {:induction false} UnsentIsBacked(cfg: Config, run: seq<Action>)
    ensures UnsentBacked(Exec(cfg, START, run))
    decreases |run|
  {
    hide Apply, UnsentBacked, Pay, Default;
    if run == [] {
      NothingUnsent();
    } else {
      var s, a := Exec(cfg, START, run[..|run| - 1]), run[|run| - 1];
      UnsentIsBacked(cfg, run[..|run| - 1]);
      if a.APay? || a.ADefault? {
        SettlementKeepsBacking(s, a.i);
        SettlementApplies(cfg, s, a.i);
      } else {
        ApplySends(cfg, s, a);
        BackingGrows(s, Apply(cfg, s, a));
      }
    }
  }

  lemma NothingUnsent()
    ensures UnsentBacked(START)
  {
  }

  lemma SettlementApplies(cfg: Config, s: State, i: nat)
    ensures Apply(cfg, s, APay(i)) == Pay(s, i) && Apply(cfg, s, ADefault(i)) == Default(s, i)
  {
    hide Pay, Default;
  }

  /**
   * Every PENDING or RETRYING job has a message nobody has tried yet; if no message was lost it
   * is queued, or about to be, once an event is written that somebody still has to write. Every
   * PROCESSING job has a heartbeat for the reaper to judge.
   */
  lemma NoStrandedJob(cfg: Config, run: seq<Action>, j: nat)
    requires Known(cfg, run, j)
    ensures var s := Exec(cfg, START, run);
            && (s.db.jobs[j].status.Waiting() ==>
                  exists m :: 0 <= m < |s.messages| && s.messages[m].job == j && !s.messages[m].tried
                              && !s.messages[m].place.Acked? && (Lossless(cfg, run) ==> !s.messages[m].place.Lost?)
                              && (s.messages[m].place.Unsent? ==> Backed(s.debts, m)))
            && (s.db.jobs[j].status.Processing? ==> s.db.jobs[j].heartbeat.Some?)
  {
    hide Apply;
    Reachable(cfg, run);
    var s := Exec(cfg, START, run);
    assert RowOk(s.db.now, s.db.made, s.db.blobs, j, s.db.jobs[j]);
    if Lossless(cfg, run) {
      LosslessRun(cfg, run);
    }
    UnsentIsBacked(cfg, run);
    if s.db.jobs[j].status.Waiting() {
      var m :| 0 <= m < |s.messages| && s.messages[m].job == j && Live(s.messages[m]);
    }
  }

  /** Delivering such a message claims the job, or completes the cancellation it was waiting for. */
  lemma DeliveryClaims(cfg: Config, s: State, m: nat, o: Oracle)
    requires Inv(cfg, s) && m < |s.messages| && s.messages[m].place.Queued?
    requires s.db.jobs[s.messages[m].job].status.Waiting()
    ensures var j, w := s.messages[m].job, |s.workers|;
            var s' := Apply(cfg, Apply(cfg, s, ADeliver(m)), AWorker(w, o));
            && j < |s'.db.jobs|
            && (s.db.jobs[j].cancelRequested ==> s'.db.jobs[j].status.Cancelled?)
            && (!s.db.jobs[j].cancelRequested ==> Holds(s', j, s.db.jobs[j].generation + 1, w))
  {
    assert s.messages[m].job < |s.db.jobs|;
  }

  /** A snapshot just taken still describes the row. */
  lemma ReapFresh(cfg: Config, db: Db, j: nat, threshold: int)
    requires j < |db.jobs| && Abandoned(db, j, threshold)
    ensures var row := db.jobs[j];
            var db' := Reap(cfg, db, ReapItem(j, row.attempts, row.cancelRequested, threshold)).0;
            && j < |db'.jobs|
            && db'.jobs[j].status == if row.cancelRequested then Cancelled else if row.attempts < cfg.maxAttempts then Retrying else Failed
  {
  }

  /** The fate of a job whose worker has been silent for longer than the limit, one reaper pass later. */
  lemma ReaperReleases(cfg: Config, s: State, j: nat, d: nat)
    requires Inv(cfg, s) && j < |s.db.jobs| && s.db.jobs[j].status.Processing? && d > STALE_PROCESSING_AFTER
    ensures var row := s.db.jobs[j];
            var s' := ReapAct(cfg, ReapSnapshot(Tick(s, d), j), |s.reaps|);
            && j < |s'.db.jobs|
            && s'.db.jobs[j].status == if row.cancelRequested then Cancelled else if row.attempts < cfg.maxAttempts then Retrying else Failed
  {
    hide WorkersOk, TicketsOk, EnvelopesOk, SweepsOk, LapsedOk, SubmitsOk, QuotaOk, Reap;
    assert RowOk(s.db.now, s.db.made, s.db.blobs, j, s.db.jobs[j]);
    var s1 := Tick(s, d);
    var threshold := s1.db.now - STALE_PROCESSING_AFTER;
    assert Abandoned(s1.db, j, threshold);
    ReapFresh(cfg, s1.db, j, threshold);
  }
}
