/**
 * What the protocol promises about jobs, for every run from the empty system: any number of
 * workers, redeliveries, crashes, cancellations, sweeps and submissions, in any order.
 */
module JobGuarantees {
  import opened Common
  import opened Jobs
  import opened Database
  import opened Columns
  import opened DatabaseInvariant
  import opened Protocol
  import opened ProtocolInvariant
  import opened WorkerSafety
  import opened Runs
  import opened RowHistory

  // ---- Billing, announcements, ownership ------------------------------------------------------------

  /** One charge of the input size for a DONE or EXPIRED job, none for any other; the totals agree. */
  lemma ExactlyOnceBilling(cfg: Config, run: seq<Action>)
    ensures var db := Exec(cfg, START, run).db;
            && (forall j :: 0 <= j < |db.jobs| ==>
                  Charges(db.ledger, j, db.jobs[j]) == if db.jobs[j].status.Done? || db.jobs[j].status.Expired? then 1 else 0)
            && (forall c :: c in db.ledger ==> c.job < |db.jobs| && c.quantity == db.jobs[c.job].request.size)
            && Total(db.ledger) == BilledBytes(db.jobs)
  {
    hide Apply;
    Reachable(cfg, run);
  }

  /** A DONE job points at the blob made by the worker that holds its current generation. */
  lemma OutputOwnership(cfg: Config, run: seq<Action>, j: nat)
    requires j < |Exec(cfg, START, run).db.jobs|
    ensures var db := Exec(cfg, START, run).db;
            var row := db.jobs[j];
            && (row.status.Done? && row.output.Some? ==>
                  && row.worker.Some? && row.output.value < |db.made|
                  && db.made[row.output.value].maker == Conversion(j, row.generation, row.worker.value))
            && (row.status.Expired? ==> row.output.None?)
  {
    hide Apply;
    Reachable(cfg, run);
    var db := Exec(cfg, START, run).db;
    assert RowOk(db.now, db.made, db.blobs, j, db.jobs[j]);
  }

  /**
   * From one state to any later one: finished jobs stay finished (DONE may expire) under the
   * same generation; a cancel request is never forgotten, and once made it freezes the
   * generation, bars re-entry into PROCESSING and any new output; an output pointer once final
   * can only be cleared.
   */
  lemma Irrevocable(cfg: Config, run: seq<Action>, more: seq<Action>, j: nat)
    requires j < |Exec(cfg, START, run).db.jobs|
    ensures var s, s' := Exec(cfg, START, run), Exec(cfg, START, run + more);
            && j < |s'.db.jobs|
            && var r, r' := s.db.jobs[j], s'.db.jobs[j];
               && r.generation <= r'.generation
               && (r.status.Failed? || r.status.Cancelled? || r.status.Expired? ==> r'.status == r.status)
               && (r.status.Done? ==> r'.status.Done? || r'.status.Expired?)
               && (r.status.Terminal() ==> r'.generation == r.generation && (r'.output == r.output || r'.output.None?))
               && (r.cancelRequested ==>
                     && r'.cancelRequested
                     && r'.generation == r.generation
                     && (r'.status.Processing? ==> r.status.Processing?)
                     && (r'.output == r.output || r'.output.None?))
  {
    hide Apply;
    Reachable(cfg, run);
    ExecSplit(cfg, START, run, more);
    RowsLater(cfg, Exec(cfg, START, run), more);
    assert RowLater(Exec(cfg, START, run).db.jobs[j], Exec(cfg, START, run + more).db.jobs[j]);
  }

  // ---- Bounded retries -----------------------------------------------------------------------------

  function JobsAfter(cfg: Config, run: seq<Action>): seq<Job> {
    Exec(cfg, START, run).db.jobs
  }

  predicate Known(cfg: Config, run: seq<Action>, j: nat) {
    j < |JobsAfter(cfg, run)|
  }

  /** The attempt counts at which the job entered RETRYING, in order. */
  function RetryAttempts(cfg: Config, run: seq<Action>, j: nat): seq<nat>
    decreases |run|
  {
    if run == [] then []
    else
      var before := run[..|run| - 1];
      RetryAttempts(cfg, before, j)
      + (if Known(cfg, before, j) && Known(cfg, run, j)
            && !JobsAfter(cfg, before)[j].status.Retrying? && JobsAfter(cfg, run)[j].status.Retrying?
         then [JobsAfter(cfg, run)[j].attempts] else [])
  }

  /** How often the job's status changed. */
  function StatusChanges(cfg: Config, run: seq<Action>, j: nat): nat
    decreases |run|
  {
    if run == [] then 0
    else
      var before := run[..|run| - 1];
      StatusChanges(cfg, before, j)
      + (if Known(cfg, before, j) && Known(cfg, run, j)
            && JobsAfter(cfg, before)[j].status != JobsAfter(cfg, run)[j].status
         then 1 else 0)
  }

  predicate Increasing(xs: seq<nat>) {
    forall i, k :: 0 <= i < k < |xs| ==> xs[i] < xs[k]
  }

  lemma {:induction false} IncreasingLength(xs: seq<nat>)
    requires Increasing(xs) && forall i :: 0 <= i < |xs| ==> xs[i] > 0
    ensures |xs| > 0 ==> |xs| <= xs[|xs| - 1]
  {
    if |xs| > 1 {
      IncreasingLength(xs[..|xs| - 1]);
    }
  }

  /** Progress of a status within one round of claiming. */
  function Rank(status: Status): nat {
    match status
    case Pending => 0
    case Retrying => 0
    case Processing => 1
    case Expired => 3
    case _ => 2
  }

  predicate Budgeted(cfg: Config, entries: seq<nat>, changes: nat, row: Job) {
    && Increasing(entries)
    && (forall i :: 0 <= i < |entries| ==> 0 < entries[i] < cfg.maxAttempts)
    && (forall i :: 0 <= i < |entries| ==> entries[i] <= row.attempts)
    && (row.status.Processing? ==> forall i :: 0 <= i < |entries| ==> entries[i] < row.attempts)
    && changes <= 2 * |entries| + Rank(row.status)
  }

  lemma BudgetStart(cfg: Config, row: Job)
    ensures Budgeted(cfg, [], 0, row)
  {
  }

  lemma BudgetStep(cfg: Config, entries: seq<nat>, changes: nat, now: nat, r: Job, r': Job)
    requires Budgeted(cfg, entries, changes, r) && RowStep(now, r, r')
    requires r'.status.Retrying? && !r.status.Retrying? ==> 0 < r.attempts < cfg.maxAttempts
    ensures var entries' := entries + (if !r.status.Retrying? && r'.status.Retrying? then [r'.attempts] else []);
            Budgeted(cfg, entries', changes + (if r.status != r'.status then 1 else 0), r')
  {
  }

  lemma {:induction false} RetryRun(cfg: Config, run: seq<Action>, j: nat)
    ensures Known(cfg, run, j) ==> Budgeted(cfg, RetryAttempts(cfg, run, j), StatusChanges(cfg, run, j), JobsAfter(cfg, run)[j])
    ensures !Known(cfg, run, j) ==> RetryAttempts(cfg, run, j) == [] && StatusChanges(cfg, run, j) == 0
    decreases |run|
  {
    hide Apply, Budgeted, WorkersOk, TicketsOk, EnvelopesOk, SweepsOk, LapsedOk, SubmitsOk, QuotaOk;
    if run != [] {
      var before := run[..|run| - 1];
      var s, a := Exec(cfg, START, before), run[|run| - 1];
      RetryRun(cfg, before, j);
      Reachable(cfg, before);
      ApplyMoves(cfg, s, a);
      if Known(cfg, before, j) {
        assert RowMoved(cfg, s.db, Apply(cfg, s, a).db, j);
        assert RowOk(s.db.now, s.db.made, s.db.blobs, j, s.db.jobs[j]);
        BudgetStep(cfg, RetryAttempts(cfg, before, j), StatusChanges(cfg, before, j), s.db.now, s.db.jobs[j], JobsAfter(cfg, run)[j]);
      } else if Known(cfg, run, j) {
        BudgetStart(cfg, JobsAfter(cfg, run)[j]);
      }
    }
  }

  /**
   * Every entry to RETRYING is at a strictly larger attempt count below the maximum, so there
   * are fewer than `maxAttempts` of them, and a job changes its status at most
   * 2 * maxAttempts + 1 times, however often its claim is taken over.
   */
  lemma BoundedRetries(cfg: Config, run: seq<Action>, j: nat)
    requires cfg.maxAttempts > 0
    ensures var entries := RetryAttempts(cfg, run, j);
            && Increasing(entries)
            && (forall i :: 0 <= i < |entries| ==> 0 < entries[i] < cfg.maxAttempts)
            && |entries| <= cfg.maxAttempts - 1
            && StatusChanges(cfg, run, j) <= 2 * cfg.maxAttempts + 1
  {
    RetryRun(cfg, run, j);
    IncreasingLength(RetryAttempts(cfg, run, j));
  }

  /** `attempt_count` and `claim_generation` always agree. */
  lemma AttemptsAreGenerations(cfg: Config, run: seq<Action>, j: nat)
    requires Known(cfg, run, j)
    ensures JobsAfter(cfg, run)[j].attempts == JobsAfter(cfg, run)[j].generation
  {
    hide Apply;
    Reachable(cfg, run);
    var db := Exec(cfg, START, run).db;
    assert RowOk(db.now, db.made, db.blobs, j, db.jobs[j]);
  }

  // ---- Quota, keys, accounting ------------------------------------------------------------------------

  /** The PENDING, PROCESSING and RETRYING jobs of a workspace never exceed its limit. */
  lemma QuotaHolds(cfg: Config, run: seq<Action>, workspace: nat)
    ensures |UnfinishedJobs(Exec(cfg, START, run).db.jobs, workspace)| <= cfg.maxActiveJobs(workspace)
  {
    hide Apply;
    Reachable(cfg, run);
    ActiveAreUnfinished(Exec(cfg, START, run).db.jobs, workspace);
  }

  predicate SizeAdmitted(cfg: Config, sub: Submit) {
    sub.pc.Inserting? || JobMade(sub.pc).Some? ==> sub.request.size <= cfg.maxUploadBytes
  }

  ghost predicate SizesAdmitted(cfg: Config, s: State) {
    forall i :: 0 <= i < |s.submits| ==> SizeAdmitted(cfg, s.submits[i])
  }

  /** Only the quota check lets a submission on to its insert. */
  lemma OwnSize(cfg: Config, s: State, i: nat, reuse: Option<nat>, ttl: nat, limited: bool)
    requires i < |s.submits| && SizeAdmitted(cfg, s.submits[i])
    ensures var s' := SubmitStep(cfg, s, i, reuse, ttl, limited);
            && |s'.submits| == |s.submits| && SizeAdmitted(cfg, s'.submits[i])
            && s'.submits == s.submits[i := s'.submits[i]]
  {
    hide GetOrCreate, DeleteBlob, PersistBlob, QuotaFree, InsertStep, AdmitStep, Lookup;
    if s.submits[i].pc.Admitting? {
      AdmittedSize(cfg, s, i);
    } else if s.submits[i].pc.Inserting? {
      InsertedSize(s, i);
    } else if s.submits[i].pc.Looking? {
      LookupEnds(s.db, s.submits[i].request, reuse, ttl, limited);
    }
  }

  lemma AdmittedSize(cfg: Config, s: State, i: nat)
    requires i < |s.submits| && s.submits[i].pc.Admitting?
    ensures var s' := AdmitStep(cfg, s, i, s.submits[i].pc.blob);
            && |s'.submits| == |s.submits| && SizeAdmitted(cfg, s'.submits[i])
            && s'.submits == s.submits[i := s'.submits[i]]
  {
    hide QuotaFree;
  }

  lemma InsertedSize(s: State, i: nat)
    requires i < |s.submits| && s.submits[i].pc.Inserting?
    ensures var s' := InsertStep(s, i, s.submits[i].pc.blob);
            && |s'.submits| == |s.submits| && s'.submits[i].request == s.submits[i].request
            && s'.submits == s.submits[i := s'.submits[i]]
  {
    hide GetOrCreate;
  }

  lemma LookupEnds(db: Db, r: Request, reuse: Option<nat>, ttl: nat, limited: bool)
    ensures var pc := Lookup(db, r, reuse, ttl, limited); !pc.Inserting? && JobMade(pc).None?
  {
  }

  lemma SubmitSizes(cfg: Config, s: State, i: nat, reuse: Option<nat>, ttl: nat, limited: bool)
    requires SizesAdmitted(cfg, s) && i < |s.submits|
    ensures SizesAdmitted(cfg, SubmitStep(cfg, s, i, reuse, ttl, limited))
  {
    hide SizeAdmitted, Lookup, GetOrCreate;
    var s' := SubmitStep(cfg, s, i, reuse, ttl, limited);
    assert SizeAdmitted(cfg, s.submits[i]);
    OwnSize(cfg, s, i, reuse, ttl, limited);
    forall k | 0 <= k < |s'.submits| ensures SizeAdmitted(cfg, s'.submits[k]) {
      assert k != i ==> s'.submits[k] == s.submits[k];
    }
  }

  lemma ApplySizes(cfg: Config, s: State, a: Action)
    requires SizesAdmitted(cfg, s)
    ensures SizesAdmitted(cfg, Apply(cfg, s, a))
  {
    hide WorkerStep, SubmitStep, WorkerRaise, ReapAct, CancelAct, ExpiryAct, PurgeAct, GcAct, Pay, Default,
         ReapSnapshot, ExpirySnapshot, PurgeSnapshot, GcSnapshot, CancelRead, Revoke, Deliver, MoveMessage, Tick;
    if a.AWorker? && a.w < |s.workers| {
      StepFrame(cfg, s, a.w, a.oracle);
    } else if a.ASubmitStep? && a.i < |s.submits| {
      SubmitSizes(cfg, s, a.i, a.reuse, a.ttl, a.limited);
    } else if !a.ASubmit? && !a.ASubmitFault? && !a.ASubmitCrash? {
      OthersSubmitNothing(cfg, s, a);
    }
  }

  lemma OthersSubmitNothing(cfg: Config, s: State, a: Action)
    requires !(a.AWorker? && a.w < |s.workers|) && !(a.ASubmitStep? && a.i < |s.submits|)
    requires !a.ASubmit? && !a.ASubmitFault? && !a.ASubmitCrash?
    ensures Apply(cfg, s, a).submits == s.submits
  {
    hide Stale, PurgeDue, Collectable, Abandoned, Reap;
  }

  lemma {:induction false} RunSizes(cfg: Config, run: seq<Action>)
    ensures SizesAdmitted(cfg, Exec(cfg, START, run))
    decreases |run|
  {
    hide Apply;
    if run != [] {
      RunSizes(cfg, run[..|run| - 1]);
      ApplySizes(cfg, Exec(cfg, START, run[..|run| - 1]), run[|run| - 1]);
    }
  }

  /** No job is larger than the upload limit. */
  lemma UploadLimitHolds(cfg: Config, run: seq<Action>, j: nat)
    requires Known(cfg, run, j)
    ensures JobsAfter(cfg, run)[j].request.size <= cfg.maxUploadBytes
  {
    hide Apply;
    var s := Exec(cfg, START, run);
    Reachable(cfg, run);
    RunSizes(cfg, run);
    assert MadeBySubmit(s, j);
    var i := s.db.jobs[j].decision;
    assert SubmitOk(s.db, i, s.submits[i]) && SizeAdmitted(cfg, s.submits[i]);
  }

  /** At most one job per owner, workspace and idempotency key; inputs are never shared. */
  lemma OneJobPerKey(cfg: Config, run: seq<Action>, i: nat, j: nat)
    requires i < j < |Exec(cfg, START, run).db.jobs|
    ensures var jobs := Exec(cfg, START, run).db.jobs;
            && !HoldsKey(jobs[i].request, jobs[j].request)
            && jobs[i].input != jobs[j].input
            && (jobs[i].output.Some? ==> jobs[i].output != jobs[j].output)
            && jobs[i].output != Some(jobs[j].input) && jobs[j].output != Some(jobs[i].input)
  {
    hide Apply;
    Reachable(cfg, run);
    var s := Exec(cfg, START, run);
    assert RowOk(s.db.now, s.db.made, s.db.blobs, i, s.db.jobs[i]) && RowOk(s.db.now, s.db.made, s.db.blobs, j, s.db.jobs[j]);
    assert MadeBySubmit(s, i) && MadeBySubmit(s, j);
  }

  predicate Holder(db: Db, j: nat, r: Request) {
    j < |db.jobs| && HoldsKey(db.jobs[j].request, r)
  }

  /** The key belongs to a job that converts something else, or otherwise. */
  ghost predicate UsedOtherwise(db: Db, r: Request) {
    exists j: nat :: Holder(db, j, r) && !SameConversion(db.jobs[j].request, r)
  }

  /** The candidate for reuse may be served instead of a new conversion. */
  predicate Served(db: Db, reuse: Option<nat>, r: Request, hours: nat) {
    reuse.Some? && reuse.value < |db.jobs| && Servable(db, db.jobs[reuse.value], r, hours)
  }

  /**
   * The idempotency check decides on the one job that holds the key: another conversion is
   * refused, a live or downloadable one returned, a finished one refused. Only without a holder is
   * an equal delivery served again if there is one, and then a submission refused that comes too
   * fast, and any other let on.
   */
  lemma LookupDecides(db: Db, r: Request, reuse: Option<nat>, ttl: nat, limited: bool)
    requires KeysUnique(db.jobs)
    ensures var next := Lookup(db, r, reuse, ttl, limited);
            var free := forall j: nat :: !Holder(db, j, r);
            && (forall j: nat :: next == SubPc.Ended(FoundJob(j)) <==>
                  && Holder(db, j, r) && SameConversion(db.jobs[j].request, r)
                  && (Unfinished(db.jobs[j].status) || Downloadable(db, db.jobs[j])))
            && (next == SubPc.Ended(Refused(Mismatch)) <==> UsedOtherwise(db, r))
            && (next == SubPc.Ended(Refused(KeySpent)) <==>
                  exists j: nat :: Holder(db, j, r) && SameConversion(db.jobs[j].request, r)
                                   && !Unfinished(db.jobs[j].status) && !Downloadable(db, db.jobs[j]))
            && (forall j: nat :: next == SubPc.Ended(ReusedJob(j)) <==> free && reuse == Some(j) && Served(db, reuse, r, ttl))
            && (next == SubPc.Ended(Refused(RateLimited)) <==> free && !Served(db, reuse, r, ttl) && limited)
            && (next == Persisting <==> free && !Served(db, reuse, r, ttl) && !limited)
  {
    var found := FindJob(db.jobs, r);
    KeyIsFound(db.jobs, r);
    if found.Some? {
      HolderFound(db, r, reuse, ttl, limited, found.value);
    } else {
      assert forall j: nat :: !Holder(db, j, r);
    }
  }

  lemma HolderFound(db: Db, r: Request, reuse: Option<nat>, ttl: nat, limited: bool, h: nat)
    requires KeysUnique(db.jobs) && FindJob(db.jobs, r) == Some(h) && Holder(db, h, r)
    ensures forall j: nat :: Holder(db, j, r) <==> j == h
    ensures Lookup(db, r, reuse, ttl, limited)
            == (if !SameConversion(db.jobs[h].request, r) then SubPc.Ended(Refused(Mismatch))
                else if Unfinished(db.jobs[h].status) || Downloadable(db, db.jobs[h]) then SubPc.Ended(FoundJob(h))
                else SubPc.Ended(Refused(KeySpent)))
  {
    forall j: nat | Holder(db, j, r) ensures j == h {
      OneHolder(db.jobs, j, h, r);
    }
  }

  lemma OneHolder(jobs: seq<Job>, i: nat, j: nat, r: Request)
    requires KeysUnique(jobs) && i < |jobs| && j < |jobs| && jobs[i].request.SameKey(r) && jobs[j].request.SameKey(r)
    ensures i == j
  {
    if i < j {
      assert jobs[i].request.SameKey(jobs[j].request);
    } else if j < i {
      assert jobs[j].request.SameKey(jobs[i].request);
    }
  }

  /** The FileBlob rows submission `i` left behind. */
  function Leftovers(db: Db, i: nat): set<nat> {
    set b | b in db.blobs && b < |db.made| && db.made[b].maker == Upload(i)
  }

  /**
   * Net effect of a finished submission: a job with its upload and an ALLOWED decision, nothing,
   * or one DENIED decision; only a raced mismatch may leave an unreferenced upload.
   */
  lemma SubmissionAccounting(cfg: Config, run: seq<Action>, i: nat)
    requires i < |Exec(cfg, START, run).submits| && Exec(cfg, START, run).submits[i].pc.Ended?
    ensures var s := Exec(cfg, START, run);
            var r := s.submits[i].request;
            match s.submits[i].pc.outcome
            case MadeJob(j) =>
              && j < |s.db.jobs| && s.db.jobs[j].request == r
              && Leftovers(s.db, i) == {s.db.jobs[j].input} && i in s.db.allowed && i !in s.db.denied
            case Spoilt(j) =>
              && j < |s.db.jobs| && s.db.jobs[j].request == r
              && Leftovers(s.db, i) == {s.db.jobs[j].input} && i in s.db.allowed && i !in s.db.denied
            case FoundJob(j) =>
              && Holder(s.db, j, r) && SameConversion(s.db.jobs[j].request, r)
              && Leftovers(s.db, i) == {} && i !in s.db.allowed && i !in s.db.denied
            case ReusedJob(j) =>
              SameWork(s.db, j, r) && Leftovers(s.db, i) == {} && i !in s.db.allowed && i !in s.db.denied
            case Refused(RacedMismatch) =>
              && i in s.db.allowed && i !in s.db.denied
              && UsedOtherwise(s.db, r)
              && |Leftovers(s.db, i)| <= 1 && forall b :: b in Leftovers(s.db, i) ==> Unlinked(s.db, b)
            case Refused(reason) =>
              && Leftovers(s.db, i) == {} && i !in s.db.allowed
              && (i in s.db.denied <==> reason.UploadTooLarge? || reason.TooManyActiveJobs?)
              && (reason.Mismatch? ==> UsedOtherwise(s.db, r))
  {
    hide Apply;
    Reachable(cfg, run);
    var s := Exec(cfg, START, run);
    assert SubmitOk(s.db, i, s.submits[i]);
    var r := s.submits[i].request;
    match s.submits[i].pc.outcome {
      case MadeJob(j) =>
        assert RowOk(s.db.now, s.db.made, s.db.blobs, j, s.db.jobs[j]);
      case Spoilt(j) =>
        assert RowOk(s.db.now, s.db.made, s.db.blobs, j, s.db.jobs[j]);
      case Refused(RacedMismatch) =>
        ContradictionMeans(s.db, r);
        var b :| Uploaded(s.db, i, b);
        assert Leftovers(s.db, i) <= {b};
        SubsetSize(Leftovers(s.db, i), b);
      case Refused(Mismatch) =>
        ContradictionMeans(s.db, r);
      case _ =>
    }
  }

  lemma ContradictionMeans(db: Db, r: Request)
    requires Contradicted(db, r)
    ensures UsedOtherwise(db, r)
  {
    var j :| 0 <= j < |db.jobs| && Contradicts(db.jobs[j], r);
    assert Holder(db, j, r);
  }

  /** The race that comes after the check: exactly an equal conversion is answered with the winner's job. */
  lemma RaceDecides(cfg: Config, s: State, i: nat, reuse: Option<nat>, ttl: nat, limited: bool)
    requires Inv(cfg, s) && i < |s.submits| && s.submits[i].pc.Verifying?
    ensures var j, r := s.submits[i].pc.job, s.submits[i].request;
            var pc := SubmitStep(cfg, s, i, reuse, ttl, limited).submits[i].pc;
            && Holder(s.db, j, r)
            && pc == (if SameConversion(s.db.jobs[j].request, r) then DroppingRaced(s.submits[i].pc.blob, j)
                      else SubPc.Ended(Refused(RacedMismatch)))
  {
    hide Consistent, WorkersOk, TicketsOk, EnvelopesOk, SweepsOk, LapsedOk, QuotaOk, DebtsOk;
    assert SubmitOk(s.db, i, s.submits[i]);
  }

  /**
   * Under the quota's row lock an upload is refused exactly if it is too large, or the workspace has
   * as many unfinished jobs as it may, and the refusal says which; otherwise it goes on to the insert.
   */
  lemma AdmissionDecides(cfg: Config, s: State, i: nat, reuse: Option<nat>, ttl: nat, limited: bool)
    requires i < |s.submits| && s.submits[i].pc.Admitting? && QuotaFree(s, s.submits[i].request.workspace)
    ensures var r, b := s.submits[i].request, s.submits[i].pc.blob;
            var room := |UnfinishedJobs(s.db.jobs, r.workspace)| < cfg.maxActiveJobs(r.workspace);
            SubmitStep(cfg, s, i, reuse, ttl, limited).submits[i].pc
            == (if r.size > cfg.maxUploadBytes then Denying(b, UploadTooLarge)
                else if !room then Denying(b, TooManyActiveJobs) else Inserting(b))
  {
    hide ReserveQuota, QuotaFree;
    QuotaDecides(cfg, s.db, s.submits[i].request);
  }

  lemma SubsetSize(bs: set<nat>, b: nat)
    requires bs <= {b}
    ensures |bs| <= 1
  {
    if b in bs {
      assert bs == {b};
    } else {
      assert bs == {};
    }
  }
}
