/**
 * What submissions ask about stored rows, written out on the columns: the reference against which the
 * checks of `Database` are proved.
 */
module Columns {
  import opened Common
  import opened Jobs
  import opened Database

  /** The unique constraint: owner, workspace and idempotency key. */
  predicate HoldsKey(stored: Request, r: Request) {
    stored.owner == r.owner && stored.workspace == r.workspace && stored.key == r.key
  }

  /** The same conversion: formats and options agree, and so does the file if its checksum was stored. */
  predicate SameConversion(stored: Request, r: Request) {
    && stored.source == r.source && stored.target == r.target && stored.options == r.options
    && (stored.checksum == "" || stored.checksum == r.checksum)
  }

  predicate Unfinished(status: Status) {
    status == Pending || status == Processing || status == Retrying
  }

  /** Delivered, with a file that is there and whose time is not over. */
  predicate Downloadable(db: Db, row: Job) {
    && row.status == Done && row.output.Some?
    && row.output.value in db.blobs && db.blobs[row.output.value].deletedAt == None
    && (row.expiresAt == None || row.expiresAt.value > db.now)
  }

  /** A delivery of the same owner and workspace, for the same file, formats and options, within the hours. */
  predicate Servable(db: Db, row: Job, r: Request, hours: nat) {
    && Downloadable(db, row)
    && row.request.owner == r.owner && row.request.workspace == r.workspace
    && row.request.source == r.source && row.request.target == r.target
    && row.request.checksum == r.checksum && row.request.options == r.options
    && row.finishedAt.Some? && row.finishedAt.value + 3600 * hours >= db.now
  }

  /** The jobs that count against the quota of a workspace. */
  function UnfinishedJobs(jobs: seq<Job>, workspace: nat): set<nat> {
    set j: nat | j < |jobs| && jobs[j].request.workspace == workspace && Unfinished(jobs[j].status)
  }

  lemma {:induction false} ActiveAreUnfinished(jobs: seq<Job>, workspace: nat)
    ensures ActiveJobs(jobs, workspace) == |UnfinishedJobs(jobs, workspace)|
  {
    if jobs != [] {
      var n := |jobs| - 1;
      ActiveAreUnfinished(jobs[..n], workspace);
      var before := UnfinishedJobs(jobs[..n], workspace);
      assert UnfinishedJobs(jobs, workspace)
             == before + (if jobs[n].request.workspace == workspace && Unfinished(jobs[n].status) then {n} else {});
    } else {
      assert UnfinishedJobs(jobs, workspace) == {};
    }
  }

  /** The quota check lets an upload in if it is small enough and the workspace has room, and says what is wrong if not. */
  lemma QuotaDecides(cfg: Config, db: Db, r: Request)
    ensures var admission := ReserveQuota(cfg, db, r);
            var room := |UnfinishedJobs(db.jobs, r.workspace)| < cfg.maxActiveJobs(r.workspace);
            && (admission == TooLarge <==> r.size > cfg.maxUploadBytes)
            && (admission == TooManyActive <==> r.size <= cfg.maxUploadBytes && !room)
            && (admission == Admitted <==> r.size <= cfg.maxUploadBytes && room)
  {
    ActiveAreUnfinished(db.jobs, r.workspace);
  }

  /** The holder of a key, if there is one, is found. */
  lemma KeyIsFound(jobs: seq<Job>, r: Request)
    ensures FindJob(jobs, r).None? <==> forall j :: 0 <= j < |jobs| ==> !HoldsKey(jobs[j].request, r)
    ensures FindJob(jobs, r).Some? ==> FindJob(jobs, r).value < |jobs| && HoldsKey(jobs[FindJob(jobs, r).value].request, r)
  {
  }
}
