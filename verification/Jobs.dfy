/** The `ConversionJob` row and the moves one database write may make on it. */
module Jobs {
  import opened Common

  /** Seconds without a heartbeat after which a PROCESSING row counts as abandoned. */
  const STALE_PROCESSING_AFTER: nat := 600

  const SECONDS_PER_HOUR: nat := 3600

  datatype Status = Pending | Processing | Retrying | Done | Failed | Cancelled | Expired {
    predicate Terminal() {
      Done? || Failed? || Cancelled? || Expired?
    }

    /** Not claimed by anybody: a task message has to pick the job up. */
    predicate Waiting() {
      Pending? || Retrying?
    }

    predicate Active() {
      Pending? || Processing? || Retrying?
    }

    predicate Billed() {
      Done? || Expired?
    }
  }

  /** What the user submitted. `checksum` may be blank on old rows. */
  datatype Request = Request(owner: nat, workspace: nat, key: string,
                             source: string, target: string, options: string,
                             checksum: string, size: nat)
  {
    /** The columns of the unique constraint on jobs. */
    predicate SameKey(other: Request) {
      owner == other.owner && workspace == other.workspace && key == other.key
    }
  }

  datatype Job = Job(request: Request, input: nat, decision: nat, createdAt: nat,
                     status: Status, generation: nat, attempts: nat, worker: Option<nat>,
                     cancelRequested: bool, output: Option<nat>, percent: nat,
                     startedAt: Option<nat>, heartbeat: Option<nat>, updatedAt: nat,
                     finishedAt: Option<nat>, expiresAt: Option<nat>)
  {
    /** The stale filter: the heartbeat decides, `updated_at` only when there is none. */
    predicate StaleBefore(threshold: int) {
      match heartbeat
      case Some(h) => h < threshold
      case None => updatedAt < threshold
    }
  }

  /** The status changes the protocol allows. A zero retention takes PROCESSING to EXPIRED at once. */
  predicate Edge(a: Status, b: Status) {
    match a
    case Pending => b.Processing? || b.Cancelled?
    case Retrying => b.Processing? || b.Cancelled?
    case Processing => b.Retrying? || b.Terminal()
    case Done => b.Expired?
    case _ => false
  }

  /** Taking a claim: the only move that raises the generation. */
  predicate Claims(now: nat, r: Job, r': Job) {
    && r'.generation == r.generation + 1
    && r'.attempts == r.attempts + 1
    && !r.cancelRequested && !r'.cancelRequested
    && r.status.Active()
    && (r.status.Processing? ==> r.StaleBefore(now - STALE_PROCESSING_AFTER))
    && r'.status.Processing?
    && r'.heartbeat == Some(now)
    && r'.worker.Some?
    && r'.output == r.output
    && r'.startedAt.Some? && (r.startedAt.None? ==> r'.startedAt == Some(now))
    && r'.updatedAt == now
    && r'.percent == (if r.percent == 0 then 1 else r.percent)
  }

  /** Every other move: the claim is kept, or given up for good. */
  predicate KeepsClaim(r: Job, r': Job) {
    && r'.generation == r.generation
    && r'.attempts == r.attempts
    && r'.worker == r.worker
    && r'.startedAt == r.startedAt && r'.updatedAt == r.updatedAt
    && (r'.status.Processing? ==> r.status.Processing?)
    && (r'.output == r.output || r'.output.None?
        || (r.status.Processing? && r'.status.Processing? && !r.cancelRequested))
  }

  /** What any single committed write does to a job row. */
  predicate RowStep(now: nat, r: Job, r': Job) {
    && r'.request == r.request && r'.input == r.input
    && r'.decision == r.decision && r'.createdAt == r.createdAt
    && (r.cancelRequested ==> r'.cancelRequested)
    && (r.startedAt.Some? ==> r'.startedAt == r.startedAt)
    && (Claims(now, r, r') || KeepsClaim(r, r'))
    && (r'.status == r.status || Edge(r.status, r'.status))
    && (r.status.Waiting() && r'.status.Cancelled? ==> r'.cancelRequested)
    && (r'.heartbeat == r.heartbeat || r'.heartbeat == Some(now))
    && (r.status.Terminal() ==> r'.finishedAt == r.finishedAt && r'.expiresAt == r.expiresAt && r'.percent == r.percent)
    && (!r.status.Terminal() && r'.status.Terminal() ==> r'.finishedAt == Some(now) && r'.heartbeat == Some(now))
    && (!r'.status.Terminal() ==> r'.finishedAt == r.finishedAt && r'.expiresAt == r.expiresAt)
  }

  /** What any number of writes does to a job row: the transitive form of `RowStep`. */
  predicate RowLater(r: Job, r': Job) {
    && r'.request == r.request && r'.input == r.input
    && r.generation <= r'.generation
    && (r.cancelRequested ==> r'.cancelRequested && r'.generation == r.generation)
    && (r'.generation == r.generation ==>
          && r'.worker == r.worker
          && (r'.status.Processing? ==> r.status.Processing?)
          && (r.status.Waiting() ==> r'.status.Waiting() || (r'.status.Cancelled? && r'.cancelRequested))
          && (r.cancelRequested || !r.status.Processing? ==>
                r'.output == r.output || r'.output.None?))
    && (r.status.Terminal() ==>
          r'.generation == r.generation && r'.finishedAt == r.finishedAt && r'.expiresAt == r.expiresAt && r'.percent == r.percent)
    && (r.status.Terminal() ==> r'.status == r.status || (r.status.Done? && r'.status.Expired?))
  }

  lemma RowLaterStep(now: nat, a: Job, b: Job, c: Job)
    requires RowLater(a, b) && RowStep(now, b, c)
    ensures RowLater(a, c)
  {
  }
}
