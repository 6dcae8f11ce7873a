/**
 * The services as methods on mutable tables. Each method is one statement or transaction, or a
 * sweep, and is proved against the function of `Database` that the interleaved model runs.
 */
module Store {
  import opened Common
  import opened Jobs
  import opened Database
  import opened DatabaseInvariant
  import opened Protocol
  import opened Columns

  const MAINTENANCE_BATCH_SIZE: nat := 200

  // ---- Updates with their late statements -----------------------------------------------------------

  /** `retry_transition` run alone: the update, and then its event. */
  function RetryLogged(db: Db, j: nat, g: nat, flagged: bool, attempts: nat): (Db, bool) {
    var (db', scheduled) := RetryTransition(db, j, g, flagged);
    (if scheduled then Log(db', j, RetryScheduled(attempts)) else db', scheduled)
  }

  /** The flag of `request_cancel` run alone. */
  function FlagLogged(db: Db, j: nat): Db
    requires j < |db.jobs|
  {
    if db.jobs[j].cancelRequested then db else Log(SetCancelFlag(db, j), j, CancelAsked)
  }

  /** One item of `requeue_stale_jobs` run alone. */
  function ReapLogged(cfg: Config, db: Db, item: ReapItem): (Db, bool) {
    var (db', requeued) := Reap(cfg, db, item);
    (if requeued then Log(db', item.job, RequeuedStale) else db', requeued)
  }

  /** `request_cancel` run alone is the run of its refresh, its update and its two late statements. */
  lemma RequestIsRun(cfg: Config, s: State, j: nat)
    requires j < |s.db.jobs|
    ensures var c, d := |s.cancels|, |s.debts|;
            Exec(cfg, s, [ACancelRead(j), ACancelAct(c), APay(d), APay(d)]).db
            == if s.db.jobs[j].status.Waiting() then ImmediateCancel(s.db, j) else FlagLogged(s.db, j)
  {
    var c, d := |s.cancels|, |s.debts|;
    RequestSteps(cfg, s, j, c, d);
    if s.db.jobs[j].status.Waiting() {
      assert CancelAct(CancelRead(s, j), c).debts == s.debts + [Debt(j, CancelledOff, s.db.jobs[j].generation, None, Due, Due)];
    }
  }

  lemma RequestSteps(cfg: Config, s: State, j: nat, c: nat, d: nat)
    ensures Exec(cfg, s, [ACancelRead(j), ACancelAct(c), APay(d), APay(d)]) == Pay(Pay(CancelAct(CancelRead(s, j), c), d), d)
  {
    hide Pay, CancelAct, CancelRead;
    var run := [ACancelRead(j), ACancelAct(c), APay(d), APay(d)];
    assert run[..3][..2] == run[..2] && run[..2][..1] == run[..1] && run[..1][..0] == [];
    assert Exec(cfg, s, run[..1]) == CancelRead(s, j);
    assert Exec(cfg, s, run[..2]) == CancelAct(CancelRead(s, j), c);
  }

  // ---- Sweeps as folds ------------------------------------------------------------------------------

  /** How a maintenance query picks its batch: the newest rows first, at most `limit` of them. */
  function Newest(due: set<nat>, n: nat, limit: nat): (rows: seq<nat>)
    ensures |rows| <= limit && forall i :: 0 <= i < |rows| ==> rows[i] in due && rows[i] < n
  {
    if n == 0 || limit == 0 then []
    else if n - 1 in due then [n - 1] + Newest(due, n - 1, limit - 1)
    else Newest(due, n - 1, limit)
  }

  /** The stale filter. */
  function StaleRows(db: Db, threshold: int): set<nat> {
    set j: nat | j < |db.jobs| && Abandoned(db, j, threshold)
  }

  function StaleItem(db: Db, threshold: int, j: nat): ReapItem
    requires j < |db.jobs|
  {
    ReapItem(j, db.jobs[j].attempts, db.jobs[j].cancelRequested, threshold)
  }

  /** What the reaper remembers of the rows it picked. */
  function Snapped(db: Db, threshold: int, rows: seq<nat>): seq<ReapItem>
    requires forall i :: 0 <= i < |rows| ==> rows[i] < |db.jobs|
  {
    seq(|rows|, i requires 0 <= i < |rows| => StaleItem(db, threshold, rows[i]))
  }

  function StaleItems(db: Db, threshold: int, limit: nat): seq<ReapItem> {
    Snapped(db, threshold, Newest(StaleRows(db, threshold), |db.jobs|, limit))
  }

  /** The tables after the reaper worked off `items`, and the jobs it dispatched. */
  function ReapAll(cfg: Config, db: Db, items: seq<ReapItem>): (Db, seq<nat>)
    decreases |items|
  {
    if items == [] then (db, [])
    else
      var last := |items| - 1;
      var (mid, sent) := ReapAll(cfg, db, items[..last]);
      var (db', requeued) := ReapLogged(cfg, mid, items[last]);
      (db', if requeued then sent + [items[last].job] else sent)
  }

  predicate ExpiryDue(db: Db, j: nat)
    requires j < |db.jobs|
  {
    db.jobs[j].status.Done? && db.jobs[j].expiresAt.Some? && db.jobs[j].expiresAt.value <= db.now
  }

  function DueRows(db: Db): set<nat> {
    set j: nat | j < |db.jobs| && ExpiryDue(db, j)
  }

  function DueItemsOf(db: Db, rows: seq<nat>): seq<ExpiryItem>
    requires forall i :: 0 <= i < |rows| ==> rows[i] < |db.jobs|
  {
    seq(|rows|, i requires 0 <= i < |rows| => ExpiryItem(rows[i], db.jobs[rows[i]].output, db.now))
  }

  function DueItems(db: Db, limit: nat): seq<ExpiryItem> {
    DueItemsOf(db, Newest(DueRows(db), |db.jobs|, limit))
  }

  function ExpireAll(db: Db, items: seq<ExpiryItem>): Db
    decreases |items|
  {
    if items == [] then db
    else
      var e := items[|items| - 1];
      ExpireOutput(ExpireAll(db, items[..|items| - 1]), e.job, e.blob, e.cutoff)
  }

  function PurgeRows(cfg: Config, db: Db): set<nat> {
    set j: nat | j < |db.jobs| && PurgeDue(cfg, db, j)
  }

  function InputsOf(db: Db, rows: seq<nat>): seq<nat>
    requires forall i :: 0 <= i < |rows| ==> rows[i] < |db.jobs|
  {
    seq(|rows|, i requires 0 <= i < |rows| => db.jobs[rows[i]].input)
  }

  function PurgeableInputs(cfg: Config, db: Db, limit: nat): seq<nat> {
    InputsOf(db, Newest(PurgeRows(cfg, db), |db.jobs|, limit))
  }

  function ShredAll(db: Db, blobs: seq<nat>): Db
    decreases |blobs|
  {
    if blobs == [] then db else Shred(ShredAll(db, blobs[..|blobs| - 1]), blobs[|blobs| - 1])
  }

  function OrphanRows(cfg: Config, db: Db): set<nat> {
    set b: nat | b < |db.made| && Collectable(cfg, db, b)
  }

  function Orphans(cfg: Config, db: Db, limit: nat): seq<nat> {
    Newest(OrphanRows(cfg, db), |db.made|, limit)
  }

  function DeleteAll(db: Db, blobs: seq<nat>): Db
    decreases |blobs|
  {
    if blobs == [] then db else DeleteBlob(DeleteAll(db, blobs[..|blobs| - 1]), blobs[|blobs| - 1])
  }

  /** What `raise_if_cancelled` and a failed promotion report. */
  datatype Signal = Fine | JobFenced | JobCancelled | JobMissing

  /** The read behind `raise_if_cancelled`. */
  function Signalled(db: Db, j: nat, g: nat): Signal {
    if j >= |db.jobs| then JobMissing
    else if db.jobs[j].generation != g then JobFenced
    else if db.jobs[j].cancelRequested then JobCancelled
    else Fine
  }

  /** How `submit_conversion_job` ends: a new job, the key's job, or one of the two refusals. */
  datatype Settlement = Inserted(job: nat) | Raced(job: nat) | QuotaDenied(reason: Admission) | Mismatched(job: nat)

  lemma DenialDeletesTheSame(db: Db, submission: nat, b: nat)
    ensures DeleteBlob(db.(denied := db.denied + {submission}), b).jobs == DeleteBlob(db, b).jobs
  {
  }

  datatype AdmitResult = Denied(reason: Admission) | Got(job: nat, isNew: bool)

  class Tables {
    var now: nat
    var jobs: seq<Job>
    var made: seq<Made>
    var blobs: map<nat, Blob>
    var bytes: set<nat>
    var ledger: seq<Charge>
    var notes: set<Note>
    var announced: seq<Note>
    var events: seq<JobEvent>
    var allowed: set<nat>
    var denied: set<nat>
    var progress: map<nat, nat>

    function Contents(): Db
      reads this
    {
      Db(now, jobs, made, blobs, bytes, ledger, notes, announced, events, allowed, denied)
    }

    constructor ()
      ensures Contents() == EMPTY && progress == map[]
    {
      now, jobs, made, blobs, bytes := 0, [], [], map[], {};
      ledger, notes, announced, events, allowed, denied, progress := [], {}, [], [], {}, {}, map[];
    }

    // ---- Statements -----------------------------------------------------------------------------------

    method LogEvent(j: nat, kind: EventKind)
      modifies `events
      ensures Contents() == Log(old(Contents()), j, kind)
    {
      events := events + [JobEvent(j, kind)];
    }

    method EnqueueOutbox(note: Note)
      modifies `notes, `announced
      ensures Contents() == Enqueue(old(Contents()), note)
    {
      if note !in notes {
        notes, announced := notes + {note}, announced + [note];
      }
    }

    method CancelAtOnce(j: nat)
      requires j < |jobs|
      modifies `jobs, `events, `notes, `announced
      ensures Contents() == ImmediateCancel(old(Contents()), j)
    {
      if !jobs[j].status.Waiting() {
        return;
      }
      jobs := jobs[j := jobs[j].(status := Cancelled, cancelRequested := true, finishedAt := Some(now),
                                 heartbeat := Some(now), percent := 0)];
      LogEvent(j, CancelledOff);
      EnqueueOutbox(Note(j, NoteCancelled));
    }

    method ClaimJob(j: nat, w: nat) returns (claim: Claim)
      modifies `jobs, `events, `notes, `announced
      ensures (Contents(), claim) == Database.ClaimJob(old(Contents()), j, w)
    {
      if j >= |jobs| {
        return NotGranted;
      }
      var row := jobs[j];
      if row.cancelRequested {
        if row.status.Waiting() {
          CancelAtOnce(j);
        }
        return NotGranted;
      }
      if row.status.Terminal() {
        return NotGranted;
      }
      var stale := row.status.Processing? && row.StaleBefore(now - STALE_PROCESSING_AFTER);
      if !row.status.Waiting() && !stale {
        return NotGranted;
      }
      row := row.(status := Processing, worker := Some(w), generation := row.generation + 1);
      row := row.(attempts := row.attempts + 1, heartbeat := Some(now), percent := Max(row.percent, 1), updatedAt := now);
      if row.startedAt.None? {
        row := row.(startedAt := Some(now));
      }
      jobs := jobs[j := row];
      LogEvent(j, Claimed(row.generation, w));
      return Granted(row.generation, row.attempts, row.cancelRequested);
    }

    /** `heartbeat` reports whether the claim is still held. */
    method Heartbeat(j: nat, g: nat) returns (held: bool)
      modifies `jobs
      ensures Contents() == Database.Heartbeat(old(Contents()), j, g)
      ensures held == Fence(old(Contents()), j, g)
    {
      held := j < |jobs| && jobs[j].generation == g && jobs[j].status.Processing?;
      if held {
        jobs := jobs[j := jobs[j].(heartbeat := Some(now))];
      }
    }

    method CoarseProgress(j: nat, g: nat, percent: nat)
      modifies `jobs
      ensures Contents() == Progress(old(Contents()), j, g, percent)
    {
      if j < |jobs| && jobs[j].generation == g && jobs[j].status.Processing? {
        jobs := jobs[j := jobs[j].(percent := percent, heartbeat := Some(now))];
      }
    }

    /** `request_cancel`, run alone; `seen` is the status of the caller's copy of the job. */
    method RequestCancel(j: nat, seen: Status)
      requires j < |jobs|
      modifies `jobs, `events, `notes, `announced
      ensures seen.Terminal() ==> Contents() == old(Contents())
      ensures !seen.Terminal() && old(jobs[j].status.Waiting()) ==> Contents() == ImmediateCancel(old(Contents()), j)
      ensures !seen.Terminal() && !old(jobs[j].status.Waiting()) ==> Contents() == FlagLogged(old(Contents()), j)
      ensures !seen.Terminal() ==>
                && j < |jobs| && jobs[j].cancelRequested
                && (old(jobs)[j].status.Waiting() ==>
                      && jobs[j].status == Cancelled && events == old(events) + [JobEvent(j, CancelledOff)]
                      && Note(j, NoteCancelled) in notes)
                && (!old(jobs)[j].status.Waiting() ==>
                      && jobs[j] == old(jobs)[j].(cancelRequested := true) && notes == old(notes)
                      && events == old(events) + if old(jobs)[j].cancelRequested then [] else [JobEvent(j, CancelAsked)])
    {
      if seen.Terminal() {
        return;
      }
      var row := jobs[j];
      if row.cancelRequested && !row.status.Waiting() {
        return;
      }
      if row.status.Waiting() {
        CancelAtOnce(j);
        return;
      }
      jobs := jobs[j := row.(cancelRequested := true)];
      LogEvent(j, CancelAsked);
    }

    method RaiseIfCancelled(j: nat, g: nat) returns (signal: Signal)
      ensures signal == Signalled(Contents(), j, g)
    {
      if j >= |jobs| {
        return JobMissing;
      }
      if jobs[j].generation != g {
        return JobFenced;
      }
      if jobs[j].cancelRequested {
        return JobCancelled;
      }
      return Fine;
    }

    // ---- Blobs ------------------------------------------------------------------------------------------

    method CreateBlob(maker: Maker) returns (b: nat)
      modifies `made, `blobs, `bytes
      ensures Contents() == PersistBlob(old(Contents()), maker)
      ensures b == |old(made)|
    {
      b := |made|;
      made := made + [Made(maker, now)];
      bytes := bytes + {b};
      blobs := blobs[b := Blob(None)];
    }

    /** The delete of a blob and its file: PROTECT on inputs, SET NULL on outputs. */
    method DiscardBlob(b: nat) returns (deleted: bool)
      modifies `bytes, `blobs, `jobs
      ensures Contents() == DeleteBlob(old(Contents()), b)
      ensures deleted <==> !InputOf(old(Contents()), b)
    {
      ghost var db := Contents();
      bytes := bytes - {b};
      var i := 0;
      deleted := true;
      while i < |jobs|
        invariant i <= |jobs|
        invariant Contents() == db.(bytes := db.bytes - {b})
        invariant deleted <==> !exists j :: 0 <= j < i && db.jobs[j].input == b
      {
        if jobs[i].input == b {
          deleted := false;
        }
        i := i + 1;
      }
      assert deleted <==> !InputOf(db, b);
      if !deleted {
        return;
      }
      blobs := blobs - {b};
      i := 0;
      while i < |jobs|
        invariant i <= |jobs| == |db.jobs|
        invariant Contents() == db.(bytes := db.bytes - {b}, blobs := db.blobs - {b}, jobs := jobs)
        invariant forall j :: 0 <= j < i ==> jobs[j] == Forget(db.jobs[j], b)
        invariant forall j :: i <= j < |jobs| ==> jobs[j] == db.jobs[j]
      {
        if jobs[i].output == Some(b) {
          jobs := jobs[i := jobs[i].(output := None)];
        }
        i := i + 1;
      }
      assert !InputOf(db, b);
      assert jobs == DeleteBlob(db, b).jobs;
    }

    method ShredBlob(b: nat)
      modifies `bytes, `blobs
      ensures Contents() == Shred(old(Contents()), b)
    {
      if b in blobs && blobs[b].deletedAt.None? {
        bytes := bytes - {b};
        blobs := blobs[b := Blob(Some(now))];
      }
    }

    // ---- Ends of an attempt -----------------------------------------------------------------------------

    /** `promote_output`; a refused promotion reads the row again to say why. */
    method PromoteOutput(j: nat, g: nat, b: nat) returns (signal: Signal)
      modifies `jobs
      ensures (Contents(), signal.Fine?) == Database.PromoteOutput(old(Contents()), j, g, b)
      ensures signal.JobCancelled? <==> !signal.Fine? && j < |jobs| && jobs[j].generation == g && jobs[j].cancelRequested
    {
      if j < |jobs| && jobs[j].generation == g && jobs[j].status.Processing? && !jobs[j].cancelRequested {
        jobs := jobs[j := jobs[j].(output := Some(b), percent := 98)];
        return Fine;
      }
      if j < |jobs| && jobs[j].generation == g && jobs[j].cancelRequested {
        return JobCancelled;
      }
      return JobFenced;
    }

    method PurgeExpired(j: nat)
      modifies `jobs, `bytes, `blobs, `events
      ensures Contents() == PurgeExpiredOutput(old(Contents()), j)
    {
      if j >= |jobs| || !jobs[j].status.Done? {
        return;
      }
      var blob := jobs[j].output;
      jobs := jobs[j := jobs[j].(status := Expired, output := None)];
      if blob.Some? {
        ShredBlob(blob.value);
      }
      LogEvent(j, OutputExpired);
    }

    method TerminalTransition(j: nat, g: nat, status: Status, percent: Option<nat>, ttl: nat) returns (committed: bool)
      requires Verdict(status)
      modifies `jobs, `events, `ledger, `notes, `announced, `bytes, `blobs
      ensures (Contents(), committed) == Database.TerminalTransition(old(Contents()), j, g, status, percent, ttl)
    {
      if j >= |jobs| || jobs[j].generation != g || !jobs[j].status.Processing? {
        return false;
      }
      var row := jobs[j].(status := status, finishedAt := Some(now), heartbeat := Some(now));
      if percent.Some? {
        row := row.(percent := percent.value);
      }
      if status.Done? {
        row := row.(expiresAt := Some(now + ttl * SECONDS_PER_HOUR));
      }
      jobs := jobs[j := row];
      LogEvent(j, Concluded(status));
      if status.Done? {
        ledger := ledger + [Charge(j, row.request.size)];
      }
      EnqueueOutbox(Note(j, NoteOf(status)));
      assert Contents() == Conclude(old(Contents()), j, status, percent, ttl);
      if status.Done? && ttl == 0 {
        PurgeExpired(j);
      }
      return true;
    }

    method RetryTransition(j: nat, g: nat, flagged: bool, attempts: nat) returns (scheduled: bool)
      modifies `jobs, `events, `ledger, `notes, `announced, `bytes, `blobs
      ensures (Contents(), scheduled) == RetryLogged(old(Contents()), j, g, flagged, attempts)
      ensures scheduled <==> !flagged && Fence(old(Contents()), j, g) && !old(jobs)[j].cancelRequested
      ensures flagged && Fence(old(Contents()), j, g) ==>
                && j < |jobs| && jobs[j].status == Cancelled && jobs[j].percent == 0 && jobs[j].finishedAt == Some(now)
                && events == old(events) + [JobEvent(j, Concluded(Cancelled))]
    {
      if flagged {
        var _ := TerminalTransition(j, g, Cancelled, Some(0), 0);
        return false;
      }
      if j >= |jobs| || jobs[j].generation != g || !jobs[j].status.Processing? || jobs[j].cancelRequested {
        return false;
      }
      jobs := jobs[j := jobs[j].(status := Retrying, heartbeat := Some(now))];
      LogEvent(j, RetryScheduled(attempts));
      return true;
    }

    method EmitDeadLetter(j: nat)
      modifies `events, `notes, `announced
      ensures Contents() == Database.EmitDeadLetter(old(Contents()), j)
    {
      LogEvent(j, DeadLettered);
      EnqueueOutbox(Note(j, NoteDeadLetter));
    }

    // ---- Admission ------------------------------------------------------------------------------------

    method CountActive(workspace: nat) returns (count: nat)
      ensures count == ActiveJobs(jobs, workspace)
    {
      var i := 0;
      count := 0;
      while i < |jobs|
        invariant i <= |jobs| && count == ActiveJobs(jobs[..i], workspace)
      {
        assert jobs[..i + 1][..i] == jobs[..i];
        if jobs[i].status.Active() && jobs[i].request.workspace == workspace {
          count := count + 1;
        }
        i := i + 1;
      }
      assert jobs[..i] == jobs;
    }

    method ReserveQuota(cfg: Config, r: Request) returns (admission: Admission)
      ensures admission == Database.ReserveQuota(cfg, Contents(), r)
      ensures admission == if r.size > cfg.maxUploadBytes then TooLarge
                           else if |UnfinishedJobs(jobs, r.workspace)| >= cfg.maxActiveJobs(r.workspace) then TooManyActive
                           else Admitted
    {
      QuotaDecides(cfg, Contents(), r);
      if r.size > cfg.maxUploadBytes {
        return TooLarge;
      }
      var active := CountActive(r.workspace);
      if active >= cfg.maxActiveJobs(r.workspace) {
        return TooManyActive;
      }
      return Admitted;
    }

    /** The admitting transaction: count and insert under one lock; a denial rolls everything back. */
    method AdmitUpload(cfg: Config, submission: nat, r: Request, b: nat) returns (result: AdmitResult)
      modifies `jobs, `events, `allowed
      ensures result.Denied? ==>
                Contents() == old(Contents()) && result.reason == Database.ReserveQuota(cfg, Contents(), r) && !result.reason.Admitted?
      ensures result.Got? ==>
                Database.ReserveQuota(cfg, old(Contents()), r).Admitted?
                && (Contents(), result.job, result.isNew) == GetOrCreate(old(Contents()), submission, r, b)
      ensures result.Got? && result.isNew ==>
                ActiveJobs(jobs, r.workspace) <= cfg.maxActiveJobs(r.workspace)
    {
      var admission := ReserveQuota(cfg, r);
      if !admission.Admitted? {
        return Denied(admission);
      }
      allowed := allowed + {submission};
      var existing := FindJob(jobs, r);
      if existing.Some? {
        return Got(existing.value, false);
      }
      jobs := jobs + [Job(r, b, submission, now, Pending, 0, 0, None, false, None, 0, None, None, now, None, None)];
      assert jobs[..|jobs| - 1] == old(jobs);
      LogEvent(|jobs| - 1, Created);
      return Got(|jobs| - 1, true);
    }

    method RecordDenial(submission: nat)
      modifies `denied
      ensures Contents() == old(Contents()).(denied := old(denied) + {submission})
    {
      denied := denied + {submission};
    }

    method DiscardDecision(submission: nat)
      modifies `allowed
      ensures Contents() == old(Contents()).(allowed := old(allowed) - {submission})
    {
      allowed := allowed - {submission};
    }

    /**
     * `submit_conversion_job` from the stored upload on. The transaction rolled back on a denial, so
     * the decision is recorded afterwards: whatever happens, at most one decision of the submission
     * is left, and exactly the one that the result calls for.
     */
    method SettleUpload(cfg: Config, submission: nat, r: Request, b: nat) returns (result: Settlement)
      modifies `jobs, `events, `allowed, `denied, `bytes, `blobs
      ensures submission !in old(allowed) && submission !in old(denied) ==>
                && (submission in denied <==> result.QuotaDenied?)
                && (submission in allowed <==> result.Inserted? || result.Mismatched?)
      ensures forall other :: other != submission ==>
                (other in allowed <==> other in old(allowed)) && (other in denied <==> other in old(denied))
      ensures result.QuotaDenied? <==>
                || r.size > cfg.maxUploadBytes
                || |UnfinishedJobs(old(jobs), r.workspace)| >= cfg.maxActiveJobs(r.workspace)
      ensures result.QuotaDenied? ==> result.reason == if r.size > cfg.maxUploadBytes then TooLarge else TooManyActive
      ensures result.QuotaDenied? || result.Raced? ==> b !in bytes
      ensures result.QuotaDenied? ==> jobs == DeleteBlob(old(Contents()), b).jobs && events == old(events)
      ensures result.Inserted? <==>
                !result.QuotaDenied? && forall j :: 0 <= j < |old(jobs)| ==> !HoldsKey(old(jobs)[j].request, r)
      ensures result.Inserted? ==>
                && result.job == |old(jobs)| && |jobs| == |old(jobs)| + 1 && jobs[..|old(jobs)|] == old(jobs)
                && jobs[result.job] == Job(r, b, submission, now, Pending, 0, 0, None, false, None, 0, None, None, now, None, None)
                && bytes == old(bytes) && blobs == old(blobs)
                && |UnfinishedJobs(jobs, r.workspace)| <= cfg.maxActiveJobs(r.workspace)
      ensures result.Raced? || result.Mismatched? ==>
                && result.job < |old(jobs)| && HoldsKey(old(jobs)[result.job].request, r)
                && (result.Raced? <==> SameConversion(old(jobs)[result.job].request, r))
    {
      ghost var before := Contents();
      QuotaDecides(cfg, before, r);
      KeyIsFound(jobs, r);
      var admitted := AdmitUpload(cfg, submission, r, b);
      ActiveAreUnfinished(jobs, r.workspace);
      if admitted.Denied? {
        RecordDenial(submission);
        var _ := DiscardBlob(b);
        DenialDeletesTheSame(before, submission, b);
        return QuotaDenied(admitted.reason);
      }
      if admitted.isNew {
        return Inserted(admitted.job);
      }
      if !Matches(jobs[admitted.job].request, r) {
        return Mismatched(admitted.job);
      }
      var _ := DiscardBlob(b);
      DiscardDecision(submission);
      return Raced(admitted.job);
    }

    // ---- Sweeps -----------------------------------------------------------------------------------------

    /** The loop body of `requeue_stale_jobs`. */
    method ReapOne(cfg: Config, item: ReapItem) returns (requeued: bool)
      modifies `jobs, `events, `notes, `announced
      ensures (Contents(), requeued) == ReapLogged(cfg, old(Contents()), item)
    {
      var j := item.job;
      if item.flagged {
        if j < |jobs| && jobs[j].cancelRequested && jobs[j].status.Processing? {
          jobs := jobs[j := jobs[j].(status := Cancelled, finishedAt := Some(now), heartbeat := Some(now), percent := 0)];
          LogEvent(j, CancelledOff);
        }
        return false;
      }
      if j >= |jobs| || !jobs[j].status.Processing? || !jobs[j].StaleBefore(item.threshold) {
        return false;
      }
      if item.attempts >= cfg.maxAttempts {
        jobs := jobs[j := jobs[j].(status := Failed, percent := 0, finishedAt := Some(now), heartbeat := Some(now))];
        LogEvent(j, Concluded(Failed));
        EnqueueOutbox(Note(j, NoteFailed));
        EmitDeadLetter(j);
        return false;
      }
      jobs := jobs[j := jobs[j].(status := Retrying)];
      LogEvent(j, RequeuedStale);
      return true;
    }

    /** `requeue_stale_jobs`: at most one batch; `sent` are the jobs dispatched again. */
    method RequeueStaleJobs(cfg: Config) returns (requeued: nat, sent: seq<nat>)
      modifies `jobs, `events, `notes, `announced
      ensures var items := StaleItems(old(Contents()), old(now) - STALE_PROCESSING_AFTER, MAINTENANCE_BATCH_SIZE);
              (Contents(), sent) == ReapAll(cfg, old(Contents()), items)
      ensures requeued == |sent|
    {
      var threshold := now - STALE_PROCESSING_AFTER;
      var items := StaleItems(Contents(), threshold, MAINTENANCE_BATCH_SIZE);
      var i := 0;
      requeued, sent := 0, [];
      while i < |items|
        invariant i <= |items| && requeued == |sent|
        invariant (Contents(), sent) == ReapAll(cfg, old(Contents()), items[..i])
      {
        assert items[..i + 1][..i] == items[..i];
        var again := ReapOne(cfg, items[i]);
        if again {
          sent := sent + [items[i].job];
          requeued := requeued + 1;
        }
        i := i + 1;
      }
      assert items[..i] == items;
    }

    /** `expire_due_outputs` counts what it expired: one event each. */
    method ExpireDueOutputs() returns (expired: nat)
      modifies `jobs, `bytes, `blobs, `events
      ensures Contents() == ExpireAll(old(Contents()), DueItems(old(Contents()), MAINTENANCE_BATCH_SIZE))
      ensures |events| == |old(events)| + expired
    {
      hide DueItems;
      var items := DueItems(Contents(), MAINTENANCE_BATCH_SIZE);
      var i := 0;
      expired := 0;
      while i < |items|
        invariant i <= |items| && Contents() == ExpireAll(old(Contents()), items[..i])
        invariant |events| == |old(events)| + expired
      {
        assert items[..i + 1][..i] == items[..i];
        var j, blob, cutoff := items[i].job, items[i].blob, items[i].cutoff;
        if j < |jobs| && jobs[j].status.Done? && jobs[j].expiresAt.Some? && jobs[j].expiresAt.value <= cutoff
           && (blob.Some? ==> blob.value in blobs) {
          jobs := jobs[j := jobs[j].(status := Expired, output := None)];
          if blob.Some? {
            ShredBlob(blob.value);
          }
          LogEvent(j, OutputExpired);
          expired := expired + 1;
        }
        i := i + 1;
      }
      assert items[..i] == items;
    }

    /** `purge_terminal_input_files`; the rows of purged inputs stay. */
    method PurgeTerminalInputFiles(cfg: Config) returns (purged: nat)
      modifies `bytes, `blobs
      ensures var items := PurgeableInputs(cfg, old(Contents()), MAINTENANCE_BATCH_SIZE);
              Contents() == ShredAll(old(Contents()), items) && purged == |items|
    {
      var items := PurgeableInputs(cfg, Contents(), MAINTENANCE_BATCH_SIZE);
      purged := 0;
      while purged < |items|
        invariant purged <= |items| && Contents() == ShredAll(old(Contents()), items[..purged])
      {
        assert items[..purged + 1][..purged] == items[..purged];
        ShredBlob(items[purged]);
        purged := purged + 1;
      }
      assert items[..purged] == items;
    }

    /** `garbage_collect_blobs`: run alone it deletes what it selected, and no job row changes. */
    method GarbageCollectBlobs(cfg: Config) returns (removed: nat)
      modifies `bytes, `blobs, `jobs
      ensures var items := Orphans(cfg, old(Contents()), MAINTENANCE_BATCH_SIZE);
              Contents() == DeleteAll(old(Contents()), items) && removed == |items|
      ensures jobs == old(jobs)
    {
      var items := Orphans(cfg, Contents(), MAINTENANCE_BATCH_SIZE);
      var i := 0;
      removed := 0;
      while i < |items|
        invariant removed == i <= |items| && Contents() == DeleteAll(old(Contents()), items[..i])
        invariant jobs == old(jobs)
      {
        assert items[..i + 1][..i] == items[..i];
        assert Unlinked(old(Contents()), items[i]);
        DeleteUnlinked(Contents(), items[i]);
        var deleted := DiscardBlob(items[i]);
        if deleted {
          removed := removed + 1;
        }
        i := i + 1;
      }
      assert items[..i] == items;
    }
  }
}
