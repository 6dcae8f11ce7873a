/**
 * The tables, and every statement (or transaction) the services run against them.
 *
 * A row's primary key is its position: jobs and blob provenance only ever grow. `blobs` holds
 * the surviving FileBlob rows and `bytes` the blobs whose stored bytes exist. `notes` are the
 * outbox rows present, `announced` every outbox row ever created.
 */
module Database {
  import opened Common
  import opened Jobs

  /** Who wrote a blob's bytes; kept for blobs that are gone. */
  datatype Maker = Upload(submission: nat) | Conversion(job: nat, generation: nat, worker: nat)
  datatype Made = Made(maker: Maker, at: nat)

  datatype Blob = Blob(deletedAt: Option<nat>)

  datatype NoteKind = NoteDone | NoteFailed | NoteCancelled | NoteDeadLetter

  /** The idempotency key `job:<id>:<kind>` of an outbox row. */
  datatype Note = Note(job: nat, kind: NoteKind)

  datatype Charge = Charge(job: nat, quantity: nat)

  datatype EventKind =
    | Created
    | Claimed(generation: nat, worker: nat)
    | CancelAsked
    | CancelledOff
    | RetryScheduled(attempt: nat)
    | RequeuedStale
    | Concluded(status: Status)
    | DeadLettered
    | OutputExpired

  datatype JobEvent = JobEvent(job: nat, kind: EventKind)

  datatype Db = Db(now: nat, jobs: seq<Job>, made: seq<Made>, blobs: map<nat, Blob>, bytes: set<nat>,
                   ledger: seq<Charge>, notes: set<Note>, announced: seq<Note>, events: seq<JobEvent>,
                   allowed: set<nat>, denied: set<nat>)

  datatype Config = Config(maxAttempts: nat, inputTtl: nat, gcWindow: nat,
                           maxUploadBytes: nat, maxActiveJobs: nat -> nat)

  const EMPTY := Db(0, [], [], map[], {}, [], {}, [], [], {}, {})

  // ---- Single statements --------------------------------------------------------------------

  function Put(db: Db, j: nat, row: Job): Db
    requires j < |db.jobs|
  {
    db.(jobs := db.jobs[j := row])
  }

  function Log(db: Db, j: nat, kind: EventKind): Db {
    db.(events := db.events + [JobEvent(j, kind)])
  }

  /** `enqueue_outbox`: get_or_create on the idempotency key. */
  function Enqueue(db: Db, note: Note): Db {
    if note in db.notes then db
    else db.(notes := db.notes + {note}, announced := db.announced + [note])
  }

  /** The fence `(pk, claim_generation, status = PROCESSING)` selects a row. */
  predicate Fence(db: Db, j: nat, g: nat) {
    j < |db.jobs| && db.jobs[j].generation == g && db.jobs[j].status.Processing?
  }

  // ---- Claiming and cancelling ----------------------------------------------------------------

  /** The conditional update of `_immediate_cancel`. */
  function CancelWaiting(db: Db, j: nat): Db
    requires j < |db.jobs|
  {
    if !db.jobs[j].status.Waiting() then db
    else Put(db, j, db.jobs[j].(status := Cancelled, cancelRequested := true, finishedAt := Some(db.now),
                                heartbeat := Some(db.now), percent := 0))
  }

  /** `_immediate_cancel` as a whole: so it runs inside the transaction of `claim_job`. */
  function ImmediateCancel(db: Db, j: nat): Db
    requires j < |db.jobs|
  {
    if !db.jobs[j].status.Waiting() then db
    else Enqueue(Log(CancelWaiting(db, j), j, CancelledOff), Note(j, NoteCancelled))
  }

  datatype Claim = NotGranted | Granted(generation: nat, attempts: nat, flagged: bool)

  predicate Claimable(db: Db, j: nat) {
    && j < |db.jobs|
    && !db.jobs[j].cancelRequested
    && (|| db.jobs[j].status.Waiting()
        || (db.jobs[j].status.Processing? && db.jobs[j].StaleBefore(db.now - STALE_PROCESSING_AFTER)))
  }

  /** `claim_job` for worker `w`, one transaction under the row lock. */
  function ClaimJob(db: Db, j: nat, w: nat): (Db, Claim) {
    if j >= |db.jobs| then (db, NotGranted)
    else if db.jobs[j].cancelRequested then (ImmediateCancel(db, j), NotGranted)
    else if !Claimable(db, j) then (db, NotGranted)
    else
      var row := db.jobs[j];
      var g := row.generation + 1;
      var claimed := row.(status := Processing, worker := Some(w), generation := g,
                          attempts := row.attempts + 1,
                          startedAt := if row.startedAt.Some? then row.startedAt else Some(db.now),
                          heartbeat := Some(db.now), percent := Max(row.percent, 1),
                          updatedAt := db.now);
      (Log(Put(db, j, claimed), j, Claimed(g, w)), Granted(g, row.attempts + 1, false))
  }

  /** The update of `request_cancel` that only sets the flag, whatever the status. */
  function SetCancelFlag(db: Db, j: nat): Db
    requires j < |db.jobs|
  {
    if db.jobs[j].cancelRequested then db else Put(db, j, db.jobs[j].(cancelRequested := true))
  }

  // ---- Fenced writes of a worker ----------------------------------------------------------------

  function Heartbeat(db: Db, j: nat, g: nat): Db {
    if !Fence(db, j, g) then db
    else Put(db, j, db.jobs[j].(heartbeat := Some(db.now)))
  }

  /** `coarse_progress`, and the database half of a progress report. */
  function Progress(db: Db, j: nat, g: nat, percent: nat): Db {
    if !Fence(db, j, g) then db
    else Put(db, j, db.jobs[j].(percent := percent, heartbeat := Some(db.now)))
  }

  /** The tables are the same but for percentage and heartbeat of row `j`. */
  predicate OnlyBeats(db: Db, db': Db, j: nat) {
    && db' == db.(jobs := db'.jobs) && |db'.jobs| == |db.jobs|
    && (forall k :: 0 <= k < |db.jobs| && k != j ==> db'.jobs[k] == db.jobs[k])
    && (j < |db.jobs| ==> db'.jobs[j] == db.jobs[j].(percent := db'.jobs[j].percent, heartbeat := db'.jobs[j].heartbeat))
  }

  function PersistBlob(db: Db, maker: Maker): Db {
    var b := |db.made|;
    db.(made := db.made + [Made(maker, db.now)], blobs := db.blobs[b := Blob(None)], bytes := db.bytes + {b})
  }

  function PromoteOutput(db: Db, j: nat, g: nat, b: nat): (Db, bool) {
    if Fence(db, j, g) && !db.jobs[j].cancelRequested
    then (Put(db, j, db.jobs[j].(output := Some(b), percent := 98)), true)
    else (db, false)
  }

  /** The update of `retry_transition`; its event is a statement of its own. */
  function RetryTransition(db: Db, j: nat, g: nat, flagged: bool): (Db, bool) {
    if flagged then (TerminalTransition(db, j, g, Cancelled, Some(0), 0).0, false)
    else if Fence(db, j, g) && !db.jobs[j].cancelRequested
    then (Put(db, j, db.jobs[j].(status := Retrying, heartbeat := Some(db.now))), true)
    else (db, false)
  }

  function NoteOf(status: Status): NoteKind {
    match status
    case Done => NoteDone
    case Failed => NoteFailed
    case _ => NoteCancelled
  }

  /** The verdicts a worker may write. */
  predicate Verdict(status: Status) {
    status.Done? || status.Failed? || status.Cancelled?
  }

  /** `terminal_transition`, one transaction; `ttl` is the output retention in hours. */
  function TerminalTransition(db: Db, j: nat, g: nat, status: Status, percent: Option<nat>, ttl: nat): (Db, bool)
    requires Verdict(status)
  {
    if !Fence(db, j, g) then (db, false)
    else
      var ended := Conclude(db, j, status, percent, ttl);
      (if status.Done? && ttl == 0 then PurgeExpiredOutput(ended, j) else ended, true)
  }

  /** The row update with its event, ledger row and outbox row. */
  function Conclude(db: Db, j: nat, status: Status, percent: Option<nat>, ttl: nat): Db
    requires Verdict(status) && j < |db.jobs|
  {
    var row := Verdicted(db.now, db.jobs[j], status, percent, ttl);
    var logged := Log(Put(db, j, row), j, Concluded(status));
    var billed := if status.Done? then logged.(ledger := logged.ledger + [Charge(j, row.request.size)]) else logged;
    Enqueue(billed, Note(j, NoteOf(status)))
  }

  function Verdicted(now: nat, row: Job, status: Status, percent: Option<nat>, ttl: nat): Job {
    row.(status := status, finishedAt := Some(now), heartbeat := Some(now),
         percent := if percent.Some? then percent.value else row.percent,
         expiresAt := if status.Done? then Some(now + ttl * SECONDS_PER_HOUR) else row.expiresAt)
  }

  /** `_purge_expired_output`: a DONE job whose retention is zero expires in the same transaction. */
  function PurgeExpiredOutput(db: Db, j: nat): Db {
    if j < |db.jobs| && db.jobs[j].status.Done? then Retire(db, j, db.jobs[j].output) else db
  }

  function EmitDeadLetter(db: Db, j: nat): Db {
    Enqueue(Log(db, j, DeadLettered), Note(j, NoteDeadLetter))
  }

  // ---- Sweeps -----------------------------------------------------------------------------------

  /** DONE becomes EXPIRED, the pointer is cleared and the bytes of `blob` go. */
  function Retire(db: Db, j: nat, blob: Option<nat>): Db
    requires j < |db.jobs|
  {
    var db1 := Put(db, j, db.jobs[j].(status := Expired, output := None));
    var db2 := if blob.Some? then Shred(db1, blob.value) else db1;
    Log(db2, j, OutputExpired)
  }

  /** Delete the stored bytes and stamp the row, unless it is stamped already. */
  function Shred(db: Db, b: nat): Db {
    if b in db.blobs && db.blobs[b].deletedAt.None?
    then db.(bytes := db.bytes - {b}, blobs := db.blobs[b := Blob(Some(db.now))])
    else db
  }

  /** One item of `expire_due_outputs`; `blob` and `cutoff` come from the sweep's snapshot. */
  function ExpireOutput(db: Db, j: nat, blob: Option<nat>, cutoff: nat): Db {
    if j >= |db.jobs| || !db.jobs[j].status.Done? || db.jobs[j].expiresAt.None? || db.jobs[j].expiresAt.value > cutoff
    then db
    else if blob.Some? && blob.value !in db.blobs
    then db // saving a vanished blob row raises, and the transaction rolls back
    else Retire(db, j, blob)
  }

  datatype ReapItem = ReapItem(job: nat, attempts: nat, flagged: bool, threshold: int)

  predicate Abandoned(db: Db, j: nat, threshold: int) {
    j < |db.jobs| && db.jobs[j].status.Processing? && db.jobs[j].StaleBefore(threshold)
  }

  function ReapCancel(db: Db, j: nat): Db {
    if j < |db.jobs| && db.jobs[j].cancelRequested && db.jobs[j].status.Processing? then
      var row := db.jobs[j].(status := Cancelled, finishedAt := Some(db.now),
                             heartbeat := Some(db.now), percent := 0);
      Log(Put(db, j, row), j, CancelledOff)
    else db
  }

  function ReapFail(db: Db, j: nat, threshold: int): Db {
    if Abandoned(db, j, threshold) then
      var row := db.jobs[j].(status := Failed, percent := 0, finishedAt := Some(db.now),
                             heartbeat := Some(db.now));
      var db1 := Enqueue(Log(Put(db, j, row), j, Concluded(Failed)), Note(j, NoteFailed));
      EmitDeadLetter(db1, j)
    else db
  }

  function ReapRequeue(db: Db, j: nat, threshold: int): (Db, bool) {
    if Abandoned(db, j, threshold)
    then (Put(db, j, db.jobs[j].(status := Retrying)), true)
    else (db, false)
  }

  /**
   * What one item of `requeue_stale_jobs` commits first. The flag says that the job was requeued:
   * its event and its dispatch are then still to come.
   */
  function Reap(cfg: Config, db: Db, item: ReapItem): (Db, bool) {
    if item.flagged then (ReapCancel(db, item.job), false)
    else if item.attempts >= cfg.maxAttempts then (ReapFail(db, item.job, item.threshold), false)
    else ReapRequeue(db, item.job, item.threshold)
  }

  ghost predicate InputOf(db: Db, b: nat) {
    exists j :: 0 <= j < |db.jobs| && db.jobs[j].input == b
  }

  /** No job points at `b`. */
  predicate Unlinked(db: Db, b: nat) {
    forall j :: 0 <= j < |db.jobs| ==> db.jobs[j].input != b && db.jobs[j].output != Some(b)
  }

  function Forget(row: Job, b: nat): Job {
    if row.output == Some(b) then row.(output := None) else row
  }

  /**
   * Delete a blob's file and then its row: `_discard_blob` and one item of
   * `garbage_collect_blobs`. An input reference protects the row (not the bytes); an output
   * reference is set to NULL.
   */
  function DeleteBlob(db: Db, b: nat): Db {
    var db1 := db.(bytes := db.bytes - {b});
    if exists j :: 0 <= j < |db.jobs| && db.jobs[j].input == b then db1
    else db1.(blobs := db.blobs - {b},
              jobs := seq(|db.jobs|, j requires 0 <= j < |db.jobs| => Forget(db.jobs[j], b)))
  }

  // ---- Submission -------------------------------------------------------------------------------

  /** The number of jobs of a workspace that count against its quota. */
  function ActiveJobs(jobs: seq<Job>, workspace: nat): nat {
    if jobs == [] then 0
    else ActiveJobs(jobs[..|jobs| - 1], workspace)
         + (if jobs[|jobs| - 1].status.Active() && jobs[|jobs| - 1].request.workspace == workspace then 1 else 0)
  }

  datatype Admission = TooLarge | TooManyActive | Admitted

  /** `reserve_quota`, under the row lock of the workspace's quota. */
  function ReserveQuota(cfg: Config, db: Db, r: Request): Admission {
    if r.size > cfg.maxUploadBytes then TooLarge
    else if ActiveJobs(db.jobs, r.workspace) >= cfg.maxActiveJobs(r.workspace) then TooManyActive
    else Admitted
  }

  /** The job holding the request's idempotency key. */
  function FindJob(jobs: seq<Job>, r: Request): (found: Option<nat>)
    ensures found.Some? ==> found.value < |jobs| && jobs[found.value].request.SameKey(r)
    ensures found.None? ==> forall j :: 0 <= j < |jobs| ==> !jobs[j].request.SameKey(r)
  {
    if jobs == [] then None
    else
      var last := |jobs| - 1;
      if jobs[last].request.SameKey(r) then Some(last) else FindJob(jobs[..last], r)
  }

  /** `_verify_idempotent_match` accepts the stored job for the new request. */
  predicate Matches(stored: Request, r: Request) {
    && stored.source == r.source && stored.target == r.target
    && (stored.checksum == "" || stored.checksum == r.checksum)
    && stored.options == r.options
  }

  predicate OutputAvailable(db: Db, j: nat)
    requires j < |db.jobs|
  {
    var row := db.jobs[j];
    && row.status.Done? && row.output.Some?
    && row.output.value in db.blobs && db.blobs[row.output.value].deletedAt.None?
    && (row.expiresAt.Some? ==> db.now < row.expiresAt.value)
  }

  /** `_idempotent_job_returnable`. */
  predicate Returnable(db: Db, j: nat)
    requires j < |db.jobs|
  {
    db.jobs[j].status.Active() || OutputAvailable(db, j)
  }

  /** A candidate of `_find_reusable_job` that may be served instead of a new conversion. */
  predicate Reusable(db: Db, j: nat, r: Request, ttl: nat)
    requires j < |db.jobs|
  {
    var row := db.jobs[j];
    && row.request.workspace == r.workspace && row.request.owner == r.owner
    && row.request.source == r.source && row.request.target == r.target
    && row.request.checksum == r.checksum && row.request.options == r.options
    && row.finishedAt.Some? && row.finishedAt.value >= db.now - ttl * SECONDS_PER_HOUR
    && OutputAvailable(db, j)
  }

  /** The insert of `get_or_create`, with the decision committed beside it. */
  function InsertJob(db: Db, submission: nat, r: Request, b: nat): Db {
    var row := Job(r, b, submission, db.now, Pending, 0, 0, None, false, None, 0,
                   None, None, db.now, None, None);
    Log(db.(jobs := db.jobs + [row], allowed := db.allowed + {submission}), |db.jobs|, Created)
  }

  /** The admitting transaction after the quota check: the row, and whether it is new. */
  function GetOrCreate(db: Db, submission: nat, r: Request, b: nat): (Db, nat, bool) {
    match FindJob(db.jobs, r)
    case Some(j) => (db.(allowed := db.allowed + {submission}), j, false)
    case None => (InsertJob(db, submission, r, b), |db.jobs|, true)
  }
}
