/**
 * The simple machine behind the protocol: a job has at most one owner, and only the owner acts.
 * It knows no generations, fences, heartbeats or messages; `Refines` shows that every run of the
 * interleaved system is a run of it.
 */
module OneOwner {
  import opened Common

  /** `output` is what this owner has promoted. */
  datatype Phase =
    | Waiting
    | Owned(owner: nat, output: Option<nat>)
    | Delivered(maker: nat, output: Option<nat>)
    | Broken
    | Stopped
    | Withdrawn

  datatype Task = Task(phase: Phase, cancelWanted: bool, claims: nat)

  datatype Label =
    | Nothing
    | Submit
    // the owner's steps
    | Promote(j: nat, w: nat, blob: nat)
    | Finish(j: nat, w: nat)
    | FinishAndWithdraw(j: nat, w: nat)
    | Break(j: nat, w: nat)
    | Stop(j: nat, w: nat)
    | Release(j: nat, w: nat)
    // everybody else's
    | Acquire(j: nat, w: nat)
    | Evict(j: nat)
    | Abandon(j: nat)
    | StopOwned(j: nat)
    | StopWaiting(j: nat)
    | Want(j: nat)
    | Withdraw(j: nat)
    | LoseOutput(blob: nat)

  predicate OwnedBy(tasks: seq<Task>, j: nat, w: nat) {
    j < |tasks| && tasks[j].phase.Owned? && tasks[j].phase.owner == w
  }

  predicate Enabled(maxAttempts: nat, tasks: seq<Task>, l: Label) {
    match l
    case Nothing => true
    case Submit => true
    case Promote(j, w, _) => OwnedBy(tasks, j, w) && !tasks[j].cancelWanted
    case Finish(j, w) => OwnedBy(tasks, j, w)
    case FinishAndWithdraw(j, w) => OwnedBy(tasks, j, w)
    case Break(j, w) => OwnedBy(tasks, j, w)
    case Stop(j, w) => OwnedBy(tasks, j, w)
    case Release(j, w) => OwnedBy(tasks, j, w) && !tasks[j].cancelWanted && tasks[j].claims < maxAttempts
    case Acquire(j, _) =>
      j < |tasks| && !tasks[j].cancelWanted && (tasks[j].phase.Waiting? || tasks[j].phase.Owned?)
    case Evict(j) => j < |tasks| && tasks[j].phase.Owned? && tasks[j].claims < maxAttempts
    case Abandon(j) => j < |tasks| && tasks[j].phase.Owned? && maxAttempts <= tasks[j].claims
    case StopOwned(j) => j < |tasks| && tasks[j].phase.Owned? && tasks[j].cancelWanted
    case StopWaiting(j) => j < |tasks| && tasks[j].phase.Waiting?
    case Want(j) => j < |tasks| && !tasks[j].cancelWanted
    case Withdraw(j) => j < |tasks| && tasks[j].phase.Delivered?
    case LoseOutput(_) => true
  }

  function Lose(t: Task, blob: nat): Task {
    if (t.phase.Owned? || t.phase.Delivered?) && t.phase.output == Some(blob)
    then t.(phase := t.phase.(output := None)) else t
  }

  function Effect(maxAttempts: nat, tasks: seq<Task>, l: Label): seq<Task>
    requires Enabled(maxAttempts, tasks, l)
  {
    match l
    case Nothing => tasks
    case Submit => tasks + [Task(Waiting, false, 0)]
    case Promote(j, w, b) => tasks[j := tasks[j].(phase := Owned(w, Some(b)))]
    case Finish(j, w) => tasks[j := tasks[j].(phase := Delivered(w, tasks[j].phase.output))]
    case FinishAndWithdraw(j, _) => tasks[j := tasks[j].(phase := Withdrawn)]
    case Break(j, _) => tasks[j := tasks[j].(phase := Broken)]
    case Stop(j, _) => tasks[j := tasks[j].(phase := Stopped)]
    case Release(j, _) => tasks[j := tasks[j].(phase := Waiting)]
    case Acquire(j, w) => tasks[j := tasks[j].(phase := Owned(w, None), claims := tasks[j].claims + 1)]
    case Evict(j) => tasks[j := tasks[j].(phase := Waiting)]
    case Abandon(j) => tasks[j := tasks[j].(phase := Broken)]
    case StopOwned(j) => tasks[j := tasks[j].(phase := Stopped)]
    case StopWaiting(j) => tasks[j := tasks[j].(phase := Stopped, cancelWanted := true)]
    case Want(j) => tasks[j := tasks[j].(cancelWanted := true)]
    case Withdraw(j) => tasks[j := tasks[j].(phase := Withdrawn)]
    case LoseOutput(b) => seq(|tasks|, k requires 0 <= k < |tasks| => Lose(tasks[k], b))
  }

  /** Where a run of the machine ends, if every label is enabled when its turn comes. */
  function After(maxAttempts: nat, labels: seq<Label>): Option<seq<Task>>
    decreases |labels|
  {
    if labels == [] then Some([])
    else
      match After(maxAttempts, labels[..|labels| - 1])
      case None => None
      case Some(tasks) =>
        var l := labels[|labels| - 1];
        if Enabled(maxAttempts, tasks, l) then Some(Effect(maxAttempts, tasks, l)) else None
  }

  // ---- What holds of the machine ------------------------------------------------------------------

  predicate Claims(l: Label, j: nat) {
    l.Acquire? && l.j == j
  }

  /** Step `p` promoted `blob` for task `j`, and nobody has taken the task since. */
  predicate PromotedAt(labels: seq<Label>, p: nat, j: nat, w: nat, blob: nat) {
    && p < |labels| && labels[p] == Promote(j, w, blob)
    && (forall q :: p < q < |labels| ==> !Claims(labels[q], j))
  }

  function HolderOf(phase: Phase): nat
    requires phase.Owned? || phase.Delivered?
  {
    if phase.Owned? then phase.owner else phase.maker
  }

  lemma PromotionShows(maxAttempts: nat, tasks: seq<Task>, l: Label)
    requires Enabled(maxAttempts, tasks, l) && l.Promote?
    ensures l.j < |Effect(maxAttempts, tasks, l)| && Effect(maxAttempts, tasks, l)[l.j].phase == Owned(l.w, Some(l.blob))
  {
  }

  /** Only a promotion gives a task an output; taking the task takes it away. */
  lemma OutputStays(maxAttempts: nat, tasks: seq<Task>, l: Label, j: nat)
    requires Enabled(maxAttempts, tasks, l) && j < |Effect(maxAttempts, tasks, l)|
    requires !(l.Promote? && l.j == j)
    requires var phase := Effect(maxAttempts, tasks, l)[j].phase; (phase.Owned? || phase.Delivered?) && phase.output.Some?
    ensures j < |tasks| && (tasks[j].phase.Owned? || tasks[j].phase.Delivered?) && !Claims(l, j)
    ensures var phase := Effect(maxAttempts, tasks, l)[j].phase;
            tasks[j].phase.output == phase.output && HolderOf(tasks[j].phase) == HolderOf(phase)
  {
  }

  /** An output, owned or delivered, was promoted by its owner during the present ownership. */
  lemma {:induction false} OutputWasPromoted(maxAttempts: nat, labels: seq<Label>, j: nat)
    requires After(maxAttempts, labels).Some? && j < |After(maxAttempts, labels).value|
    requires var phase := After(maxAttempts, labels).value[j].phase;
             (phase.Owned? || phase.Delivered?) && phase.output.Some?
    ensures var phase := After(maxAttempts, labels).value[j].phase;
            exists p: nat :: PromotedAt(labels, p, j, HolderOf(phase), phase.output.value)
    decreases |labels|
  {
    hide Effect, Enabled;
    var n := |labels| - 1;
    var before, l := labels[..n], labels[n];
    var tasks := After(maxAttempts, before).value;
    var phase := After(maxAttempts, labels).value[j].phase;
    if l.Promote? && l.j == j {
      PromotionShows(maxAttempts, tasks, l);
      assert PromotedAt(labels, n, j, HolderOf(phase), phase.output.value);
    } else {
      OutputStays(maxAttempts, tasks, l, j);
      OutputWasPromoted(maxAttempts, before, j);
      var p: nat :| PromotedAt(before, p, j, HolderOf(tasks[j].phase), tasks[j].phase.output.value);
      assert PromotedAt(labels, p, j, HolderOf(phase), phase.output.value);
    }
  }

  /** The claims counted on a task are the times it was taken. */
  function TimesTaken(labels: seq<Label>, j: nat): nat {
    if labels == [] then 0
    else TimesTaken(labels[..|labels| - 1], j) + (if Claims(labels[|labels| - 1], j) then 1 else 0)
  }

  lemma {:induction false} ClaimsCountTakings(maxAttempts: nat, labels: seq<Label>)
    requires After(maxAttempts, labels).Some?
    ensures var tasks := After(maxAttempts, labels).value;
            && (forall j :: 0 <= j < |tasks| ==> tasks[j].claims == TimesTaken(labels, j))
            && (forall j: nat :: j >= |tasks| ==> TimesTaken(labels, j) == 0)
    decreases |labels|
  {
    if labels != [] {
      ClaimsCountTakings(maxAttempts, labels[..|labels| - 1]);
    }
  }
}

/** The refinement of `Protocol` to `OneOwner`. */
module OneOwnerRefinement {
  import opened Common
  import opened Jobs
  import opened Database
  import opened DatabaseInvariant
  import opened Protocol
  import opened ProtocolInvariant
  import opened Runs
  import opened RowHistory
  import O = OneOwner

  /** The row's holder; worker numbers are never reused. */
  function Holder(row: Job): nat {
    if row.worker.Some? then row.worker.value else 0
  }

  /** The row's output as far as its current holder made it. */
  function Visible(made: seq<Made>, j: nat, row: Job): Option<nat> {
    if row.output.Some? && OwnOutput(made, j, row, row.output.value) then row.output else None
  }

  function PhaseOf(made: seq<Made>, j: nat, row: Job): O.Phase {
    match row.status
    case Pending => O.Waiting
    case Retrying => O.Waiting
    case Processing => O.Owned(Holder(row), Visible(made, j, row))
    case Done => O.Delivered(Holder(row), Visible(made, j, row))
    case Failed => O.Broken
    case Cancelled => O.Stopped
    case Expired => O.Withdrawn
  }

  function TaskOf(made: seq<Made>, j: nat, row: Job): O.Task {
    O.Task(PhaseOf(made, j, row), row.cancelRequested, row.generation)
  }

  function Alpha(db: Db): seq<O.Task> {
    seq(|db.jobs|, j requires 0 <= j < |db.jobs| => TaskOf(db.made, j, db.jobs[j]))
  }

  // ---- The abstract step of every action -----------------------------------------------------------

  function WorkerLabel(cfg: Config, s: State, w: nat, ttl: nat): O.Label
    requires w < |s.workers|
  {
    var wk := s.workers[w];
    var j := wk.job;
    var fenced := Fence(s.db, j, wk.generation);
    match wk.pc
    case AtClaim =>
      if Claimable(s.db, j) then O.Acquire(j, w)
      else if j < |s.db.jobs| && s.db.jobs[j].cancelRequested && s.db.jobs[j].status.Waiting() then O.StopWaiting(j)
      else O.Nothing
    case AtPromote(b) =>
      if fenced && !s.db.jobs[j].cancelRequested && b in s.db.blobs then O.Promote(j, w, b) else O.Nothing
    case AtDone(_) => if !fenced then O.Nothing else if ttl == 0 then O.FinishAndWithdraw(j, w) else O.Finish(j, w)
    case AtCancelled => if fenced then O.Stop(j, w) else O.Nothing
    case AtUnsupported => if fenced then O.Break(j, w) else O.Nothing
    case AtFail(_) => if fenced then O.Break(j, w) else O.Nothing
    case AtRetry =>
      if wk.attempts < cfg.maxAttempts && fenced && !s.db.jobs[j].cancelRequested then O.Release(j, w) else O.Nothing
    case _ => O.Nothing
  }

  function ReapLabel(cfg: Config, db: Db, item: ReapItem): O.Label {
    if item.flagged then
      if item.job < |db.jobs| && db.jobs[item.job].cancelRequested && db.jobs[item.job].status.Processing?
      then O.StopOwned(item.job) else O.Nothing
    else if !Abandoned(db, item.job, item.threshold) then O.Nothing
    else if item.attempts >= cfg.maxAttempts then O.Abandon(item.job)
    else O.Evict(item.job)
  }

  function CancelLabel(db: Db, op: CancelOp): O.Label {
    match op
    case Immediate(j) => if j < |db.jobs| && db.jobs[j].status.Waiting() then O.StopWaiting(j) else O.Nothing
    case Flag(j) => if j < |db.jobs| && !db.jobs[j].cancelRequested then O.Want(j) else O.Nothing
    case Spent => O.Nothing
  }

  function LabelOf(cfg: Config, s: State, a: Action): O.Label {
    match a
    case AWorker(w, o) => if w < |s.workers| then WorkerLabel(cfg, s, w, o.ttl) else O.Nothing
    case ACancelAct(c) => if c < |s.cancels| then CancelLabel(s.db, s.cancels[c]) else O.Nothing
    case AReapAct(i) => if i < |s.reaps| then ReapLabel(cfg, s.db, s.reaps[i]) else O.Nothing
    case AExpiryAct(i) =>
      if i < |s.expiries| && ExpiryAct(s, i).db.jobs != s.db.jobs
      then O.Withdraw(s.expiries[i].job) else O.Nothing
    case AGcAct(i) =>
      if i < |s.orphans| && DeleteBlob(s.db, s.orphans[i]).jobs != s.db.jobs then O.LoseOutput(s.orphans[i]) else O.Nothing
    case ASubmitStep(i, reuse, ttl, limited) =>
      if i < |s.submits| && |SubmitStep(cfg, s, i, reuse, ttl, limited).db.jobs| > |s.db.jobs| then O.Submit else O.Nothing
    case _ => O.Nothing
  }

  // ---- Simulation -----------------------------------------------------------------------------------

  /** The abstract machine takes `l` from `db` to `db'`. */
  ghost predicate Simulates(cfg: Config, db: Db, l: O.Label, db': Db) {
    O.Enabled(cfg.maxAttempts, Alpha(db), l) && Alpha(db') == O.Effect(cfg.maxAttempts, Alpha(db), l)
  }

  lemma TaskStays(db: Db, made: seq<Made>, j: nat, row: Job)
    requires Consistent(db) && j < |db.jobs| && db.made <= made
    requires row.status == db.jobs[j].status && row.worker == db.jobs[j].worker && row.output == db.jobs[j].output
    requires row.cancelRequested == db.jobs[j].cancelRequested && row.generation == db.jobs[j].generation
    ensures TaskOf(made, j, row) == TaskOf(db.made, j, db.jobs[j])
  {
    assert RowOk(db.now, db.made, db.blobs, j, db.jobs[j]);
  }

  /** A write to row `j` alone shows as a change of task `j` alone. */
  lemma OneRow(db: Db, db': Db, j: nat, row: Job)
    requires j < |db.jobs| && db'.made == db.made && db'.jobs == db.jobs[j := row]
    ensures Alpha(db') == Alpha(db)[j := TaskOf(db.made, j, row)]
  {
  }

  /** Writes that change no status, holder, flag, generation or output are invisible. */
  lemma Invisible(cfg: Config, db: Db, db': Db)
    requires Consistent(db) && |db'.jobs| == |db.jobs| && db.made <= db'.made
    requires forall j :: 0 <= j < |db.jobs| ==>
               && db'.jobs[j].status == db.jobs[j].status && db'.jobs[j].worker == db.jobs[j].worker
               && db'.jobs[j].output == db.jobs[j].output && db'.jobs[j].cancelRequested == db.jobs[j].cancelRequested
               && db'.jobs[j].generation == db.jobs[j].generation
    ensures Simulates(cfg, db, O.Nothing, db')
  {
    forall j | 0 <= j < |db.jobs| ensures Alpha(db')[j] == Alpha(db)[j] {
      TaskStays(db, db'.made, j, db'.jobs[j]);
    }
  }

  lemma AcquireSimulates(cfg: Config, db: Db, j: nat, w: nat)
    requires Consistent(db) && Claimable(db, j)
    ensures Simulates(cfg, db, O.Acquire(j, w), ClaimJob(db, j, w).0)
  {
    var db' := ClaimJob(db, j, w).0;
    assert RowOk(db.now, db.made, db.blobs, j, db.jobs[j]);
    OneRow(db, db', j, db'.jobs[j]);
  }

  lemma StopWaitingSimulates(cfg: Config, db: Db, j: nat)
    requires j < |db.jobs| && db.jobs[j].status.Waiting()
    ensures Simulates(cfg, db, O.StopWaiting(j), ImmediateCancel(db, j))
    ensures Simulates(cfg, db, O.StopWaiting(j), CancelWaiting(db, j))
  {
    OneRow(db, ImmediateCancel(db, j), j, ImmediateCancel(db, j).jobs[j]);
    OneRow(db, CancelWaiting(db, j), j, CancelWaiting(db, j).jobs[j]);
  }

  lemma ClaimSimulates(cfg: Config, s: State, w: nat)
    requires Consistent(s.db) && w < |s.workers| && s.workers[w].pc.AtClaim?
    ensures Simulates(cfg, s.db, WorkerLabel(cfg, s, w, 0), ClaimStep(s, w).db)
  {
    var j := s.workers[w].job;
    if Claimable(s.db, j) {
      AcquireSimulates(cfg, s.db, j, w);
    } else if j < |s.db.jobs| && s.db.jobs[j].cancelRequested && s.db.jobs[j].status.Waiting() {
      StopWaitingSimulates(cfg, s.db, j);
    } else {
      Invisible(cfg, s.db, s.db);
    }
  }

  lemma PromoteSimulates(cfg: Config, db: Db, j: nat, g: nat, b: nat, w: nat)
    requires Consistent(db) && PromoteOutput(db, j, g, b).1 && db.jobs[j].worker == Some(w)
    requires b < |db.made| && db.made[b].maker == Conversion(j, g, w)
    ensures Simulates(cfg, db, O.Promote(j, w, b), PromoteOutput(db, j, g, b).0)
  {
    OneRow(db, PromoteOutput(db, j, g, b).0, j, PromoteOutput(db, j, g, b).0.jobs[j]);
  }

  lemma ReleaseSimulates(cfg: Config, db: Db, j: nat, g: nat, w: nat)
    requires Consistent(db) && RetryTransition(db, j, g, false).1 && db.jobs[j].worker == Some(w) && g < cfg.maxAttempts
    ensures Simulates(cfg, db, O.Release(j, w), RetryTransition(db, j, g, false).0)
  {
    var db' := RetryTransition(db, j, g, false).0;
    OneRow(db, db', j, db'.jobs[j]);
  }

  lemma ConcludeJobs(db: Db, j: nat, g: nat, status: Status, percent: Option<nat>, ttl: nat)
    requires Verdict(status) && Fence(db, j, g)
    ensures var db' := TerminalTransition(db, j, g, status, percent, ttl).0;
            && db'.made == db.made && |db'.jobs| == |db.jobs| && db'.jobs == db.jobs[j := db'.jobs[j]]
            && db'.jobs[j].worker == db.jobs[j].worker && db'.jobs[j].generation == db.jobs[j].generation
            && db'.jobs[j].cancelRequested == db.jobs[j].cancelRequested
            && (status.Done? && ttl == 0 ==> db'.jobs[j].status.Expired?)
            && (!(status.Done? && ttl == 0) ==> db'.jobs[j].status == status && db'.jobs[j].output == db.jobs[j].output)
  {
  }

  /** The label of a verdict by worker `w`. */
  function VerdictLabel(j: nat, w: nat, status: Status, ttl: nat): O.Label
    requires Verdict(status)
  {
    match status
    case Done => if ttl == 0 then O.FinishAndWithdraw(j, w) else O.Finish(j, w)
    case Failed => O.Break(j, w)
    case _ => O.Stop(j, w)
  }

  lemma ConcludeSimulates(cfg: Config, db: Db, j: nat, g: nat, w: nat, status: Status, percent: Option<nat>, ttl: nat)
    requires Consistent(db) && Verdict(status)
    requires Fence(db, j, g) ==> db.jobs[j].worker == Some(w)
    ensures Simulates(cfg, db, if Fence(db, j, g) then VerdictLabel(j, w, status, ttl) else O.Nothing,
                      TerminalTransition(db, j, g, status, percent, ttl).0)
  {
    hide Consistent;
    if Fence(db, j, g) {
      var db' := TerminalTransition(db, j, g, status, percent, ttl).0;
      ConcludeJobs(db, j, g, status, percent, ttl);
      OneRow(db, db', j, db'.jobs[j]);
    } else {
      Invisible(cfg, db, db);
    }
  }

  lemma OutputSimulates(cfg: Config, s: State, w: nat)
    requires Consistent(s.db) && w < |s.workers| && WorkerOk(s.db, w, s.workers[w])
    requires var pc := s.workers[w].pc; pc.AtCreate? || pc.AtPromote? || pc.AtRecheck? || pc.AtDiscard?
    ensures Simulates(cfg, s.db, WorkerLabel(cfg, s, w, 0), OutputStep(s, w).db)
  {
    var wk := s.workers[w];
    Invisible(cfg, s.db, s.db);
    match wk.pc {
      case AtPromote(b) =>
        if PromoteOutput(s.db, wk.job, wk.generation, b).1 {
          PromoteSimulates(cfg, s.db, wk.job, wk.generation, b, w);
        }
      case AtDiscard(b, _) =>
        DeleteUnlinked(s.db, b);
        Invisible(cfg, s.db, DeleteBlob(s.db, b));
      case AtCreate => Invisible(cfg, s.db, PersistBlob(s.db, Conversion(wk.job, wk.generation, w)));
      case _ =>
    }
  }

  lemma DoneSimulates(cfg: Config, s: State, w: nat, ttl: nat)
    requires Consistent(s.db) && w < |s.workers| && s.workers[w].pc.AtDone? && WorkerOk(s.db, w, s.workers[w])
    ensures Simulates(cfg, s.db, WorkerLabel(cfg, s, w, ttl), VerdictStep(cfg, s, w, ttl).db)
  {
    var wk := s.workers[w];
    ConcludeSimulates(cfg, s.db, wk.job, wk.generation, w, Done, Some(100), ttl);
  }

  lemma StopSimulates(cfg: Config, s: State, w: nat, ttl: nat)
    requires Consistent(s.db) && w < |s.workers| && s.workers[w].pc.AtCancelled? && WorkerOk(s.db, w, s.workers[w])
    ensures Simulates(cfg, s.db, WorkerLabel(cfg, s, w, ttl), VerdictStep(cfg, s, w, ttl).db)
  {
    var wk := s.workers[w];
    ConcludeSimulates(cfg, s.db, wk.job, wk.generation, w, Cancelled, Some(0), 0);
  }

  lemma UnsupportedSimulates(cfg: Config, s: State, w: nat, ttl: nat)
    requires Consistent(s.db) && w < |s.workers| && s.workers[w].pc.AtUnsupported? && WorkerOk(s.db, w, s.workers[w])
    ensures Simulates(cfg, s.db, WorkerLabel(cfg, s, w, ttl), VerdictStep(cfg, s, w, ttl).db)
  {
    var wk := s.workers[w];
    ConcludeSimulates(cfg, s.db, wk.job, wk.generation, w, Failed, None, 0);
  }

  lemma FailSimulates(cfg: Config, s: State, w: nat, ttl: nat)
    requires Consistent(s.db) && w < |s.workers| && s.workers[w].pc.AtFail? && WorkerOk(s.db, w, s.workers[w])
    ensures Simulates(cfg, s.db, WorkerLabel(cfg, s, w, ttl), VerdictStep(cfg, s, w, ttl).db)
  {
    var wk := s.workers[w];
    ConcludeSimulates(cfg, s.db, wk.job, wk.generation, w, Failed, None, 0);
  }

  lemma RetrySimulates(cfg: Config, s: State, w: nat)
    requires Consistent(s.db) && w < |s.workers| && s.workers[w].pc.AtRetry? && WorkerOk(s.db, w, s.workers[w])
    ensures Simulates(cfg, s.db, WorkerLabel(cfg, s, w, 0), RetryStep(cfg, s, w).db)
  {
    var wk := s.workers[w];
    if wk.attempts < cfg.maxAttempts && RetryTransition(s.db, wk.job, wk.generation, false).1 {
      ReleaseSimulates(cfg, s.db, wk.job, wk.generation, w);
    } else {
      Invisible(cfg, s.db, s.db);
    }
  }

  lemma BeatSimulates(cfg: Config, db: Db, j: nat, g: nat, percent: nat)
    requires Consistent(db)
    ensures Simulates(cfg, db, O.Nothing, Heartbeat(db, j, g))
    ensures Simulates(cfg, db, O.Nothing, Progress(db, j, g, percent))
  {
    Invisible(cfg, db, Heartbeat(db, j, g));
    Invisible(cfg, db, Progress(db, j, g, percent));
  }

  lemma ProgressSimulates(cfg: Config, s: State, w: nat, o: Oracle)
    requires Consistent(s.db) && w < |s.workers|
    ensures Simulates(cfg, s.db, O.Nothing, ProgressStep(s, w, o).db)
  {
    var j, g, pc := s.workers[w].job, s.workers[w].generation, s.workers[w].pc;
    var percent := if pc.AtScan? then 5 else if pc.AtValidated? then 10 else if pc.AtReportPromote? then 96
                   else if o.report.Some? then Clamp(o.report.value) else 0;
    BeatSimulates(cfg, s.db, j, g, percent);
    Invisible(cfg, s.db, s.db);
    var db' := ProgressStep(s, w, o).db;
    assert db' == s.db || db' == Heartbeat(s.db, j, g) || db' == Progress(s.db, j, g, percent);
  }

  lemma WorkerSimulates(cfg: Config, s: State, w: nat, o: Oracle)
    requires Consistent(s.db) && w < |s.workers| && WorkerOk(s.db, w, s.workers[w])
    ensures Simulates(cfg, s.db, WorkerLabel(cfg, s, w, o.ttl), WorkerStep(cfg, s, w, o).db)
  {
    hide Simulates, Consistent;
    var pc := s.workers[w].pc;
    if pc.AtClaim? {
      ClaimSimulates(cfg, s, w);
    } else if pc.AtDone? {
      DoneSimulates(cfg, s, w, o.ttl);
    } else if pc.AtCancelled? {
      StopSimulates(cfg, s, w, o.ttl);
    } else if pc.AtUnsupported? {
      UnsupportedSimulates(cfg, s, w, o.ttl);
    } else if pc.AtFail? {
      FailSimulates(cfg, s, w, o.ttl);
    } else if pc.AtCreate? || pc.AtPromote? || pc.AtRecheck? || pc.AtDiscard? {
      OutputSimulates(cfg, s, w);
    } else if pc.AtRetry? {
      RetrySimulates(cfg, s, w);
    } else {
      ProgressSimulates(cfg, s, w, o);
      Invisible(cfg, s.db, s.db);
      Invisible(cfg, s.db, EmitDeadLetter(s.db, s.workers[w].job));
    }
  }

  lemma ReapCancelSimulates(cfg: Config, db: Db, j: nat)
    requires j < |db.jobs| && db.jobs[j].cancelRequested && db.jobs[j].status.Processing?
    ensures Simulates(cfg, db, O.StopOwned(j), ReapCancel(db, j))
  {
    OneRow(db, ReapCancel(db, j), j, ReapCancel(db, j).jobs[j]);
  }

  lemma ReapFailSimulates(cfg: Config, db: Db, j: nat, threshold: int)
    requires Abandoned(db, j, threshold) && db.jobs[j].generation >= cfg.maxAttempts
    ensures Simulates(cfg, db, O.Abandon(j), ReapFail(db, j, threshold))
  {
    OneRow(db, ReapFail(db, j, threshold), j, ReapFail(db, j, threshold).jobs[j]);
  }

  lemma ReapRequeueSimulates(cfg: Config, db: Db, j: nat, threshold: int)
    requires Abandoned(db, j, threshold) && db.jobs[j].generation < cfg.maxAttempts
    ensures Simulates(cfg, db, O.Evict(j), ReapRequeue(db, j, threshold).0)
  {
    OneRow(db, ReapRequeue(db, j, threshold).0, j, db.jobs[j].(status := Retrying));
  }

  lemma ReapSimulates(cfg: Config, db: Db, item: ReapItem)
    requires Consistent(db)
    requires Abandoned(db, item.job, item.threshold) ==> db.jobs[item.job].generation == item.attempts
    ensures Simulates(cfg, db, ReapLabel(cfg, db, item), Reap(cfg, db, item).0)
  {
    var l := ReapLabel(cfg, db, item);
    if l.StopOwned? {
      ReapCancelSimulates(cfg, db, item.job);
    } else if l.Abandon? {
      ReapFailSimulates(cfg, db, item.job, item.threshold);
    } else if l.Evict? {
      ReapRequeueSimulates(cfg, db, item.job, item.threshold);
    } else {
      Invisible(cfg, db, db);
    }
  }

  lemma SnapshotGeneration(cfg: Config, s: State, i: nat)
    requires Inv(cfg, s) && i < |s.reaps| && Abandoned(s.db, s.reaps[i].job, s.reaps[i].threshold)
    ensures s.db.jobs[s.reaps[i].job].generation == s.reaps[i].attempts
  {
    SnapshotStillCurrent(cfg, s, i);
    assert RowOk(s.db.now, s.db.made, s.db.blobs, s.reaps[i].job, s.db.jobs[s.reaps[i].job]);
  }

  lemma WantSimulates(cfg: Config, db: Db, j: nat)
    requires j < |db.jobs| && !db.jobs[j].cancelRequested
    ensures Simulates(cfg, db, O.Want(j), SetCancelFlag(db, j))
  {
    OneRow(db, SetCancelFlag(db, j), j, SetCancelFlag(db, j).jobs[j]);
  }

  lemma CancelSimulates(cfg: Config, s: State, c: nat)
    requires Consistent(s.db) && c < |s.cancels|
    ensures Simulates(cfg, s.db, CancelLabel(s.db, s.cancels[c]), CancelAct(s, c).db)
  {
    var l := CancelLabel(s.db, s.cancels[c]);
    if l.StopWaiting? {
      StopWaitingSimulates(cfg, s.db, l.j);
    } else if l.Want? {
      WantSimulates(cfg, s.db, l.j);
    } else {
      Invisible(cfg, s.db, s.db);
    }
  }

  lemma RetireSimulates(cfg: Config, db: Db, j: nat, blob: Option<nat>)
    requires j < |db.jobs| && db.jobs[j].status.Done?
    ensures Simulates(cfg, db, O.Withdraw(j), Retire(db, j, blob))
  {
    OneRow(db, Retire(db, j, blob), j, Retire(db, j, blob).jobs[j]);
  }

  lemma ExpirySimulates(cfg: Config, db: Db, e: ExpiryItem)
    requires Consistent(db)
    ensures var db' := ExpireOutput(db, e.job, e.blob, e.cutoff);
            Simulates(cfg, db, if db'.jobs == db.jobs then O.Nothing else O.Withdraw(e.job), db')
  {
    var db' := ExpireOutput(db, e.job, e.blob, e.cutoff);
    if db' == db {
      Invisible(cfg, db, db);
    } else {
      assert db'.jobs[e.job].status.Expired?;
      RetireSimulates(cfg, db, e.job, e.blob);
    }
  }

  /** A row that forgets blob `b` is, in the machine, a task that loses output `b`. */
  lemma ForgetShows(db: Db, b: nat, j: nat)
    requires j < |db.jobs| && RowOk(db.now, db.made, db.blobs, j, db.jobs[j])
    ensures TaskOf(db.made, j, Forget(db.jobs[j], b)) == O.Lose(TaskOf(db.made, j, db.jobs[j]), b)
  {
  }

  lemma GcSimulates(cfg: Config, db: Db, b: nat)
    requires Consistent(db)
    ensures var db' := DeleteBlob(db, b);
            Simulates(cfg, db, if db'.jobs == db.jobs then O.Nothing else O.LoseOutput(b), db')
  {
    var db' := DeleteBlob(db, b);
    if db'.jobs == db.jobs {
      Invisible(cfg, db, db');
    } else {
      assert !InputOf(db, b);
      forall j | 0 <= j < |db.jobs| ensures Alpha(db')[j] == O.Lose(Alpha(db)[j], b) {
        ForgetShows(db, b, j);
      }
    }
  }

  lemma InsertSimulates(cfg: Config, s: State, i: nat, b: nat)
    requires Consistent(s.db) && i < |s.submits|
    ensures var db' := InsertStep(s, i, b).db;
            Simulates(cfg, s.db, if |db'.jobs| > |s.db.jobs| then O.Submit else O.Nothing, db')
  {
    var db' := InsertStep(s, i, b).db;
    if |db'.jobs| == |s.db.jobs| {
      Invisible(cfg, s.db, db');
    } else {
      assert Alpha(db') == Alpha(s.db) + [O.Task(O.Waiting, false, 0)];
    }
  }

  /** Every step of a submission but the insert leaves the job rows alone. */
  lemma SubmitInvisible(cfg: Config, s: State, i: nat, reuse: Option<nat>, ttl: nat, limited: bool)
    requires i < |s.submits| && !s.submits[i].pc.Inserting? && SubmitOk(s.db, i, s.submits[i])
    ensures var db' := SubmitStep(cfg, s, i, reuse, ttl, limited).db; db'.jobs == s.db.jobs && s.db.made <= db'.made
  {
    var pc := s.submits[i].pc;
    if pc.Dropping? || pc.DroppingRaced? {
      DeleteUnlinked(s.db, pc.blob);
    }
  }

  lemma SubmitSimulates(cfg: Config, s: State, i: nat, reuse: Option<nat>, ttl: nat, limited: bool)
    requires Consistent(s.db) && i < |s.submits| && SubmitOk(s.db, i, s.submits[i])
    ensures var db' := SubmitStep(cfg, s, i, reuse, ttl, limited).db;
            Simulates(cfg, s.db, if |db'.jobs| > |s.db.jobs| then O.Submit else O.Nothing, db')
  {
    if s.submits[i].pc.Inserting? {
      InsertSimulates(cfg, s, i, s.submits[i].pc.blob);
    } else {
      SubmitInvisible(cfg, s, i, reuse, ttl, limited);
      Invisible(cfg, s.db, SubmitStep(cfg, s, i, reuse, ttl, limited).db);
    }
  }

  lemma SweepSimulates(cfg: Config, s: State, a: Action)
    requires Consistent(s.db)
    requires (a.AExpiryAct? && a.i < |s.expiries|) || (a.AGcAct? && a.i < |s.orphans|)
    ensures Simulates(cfg, s.db, LabelOf(cfg, s, a), Apply(cfg, s, a).db)
  {
    hide Simulates, Consistent;
    if a.AExpiryAct? {
      ExpirySimulates(cfg, s.db, s.expiries[a.i]);
    } else {
      GcSimulates(cfg, s.db, s.orphans[a.i]);
    }
  }

  lemma ReapActSimulates(cfg: Config, s: State, i: nat)
    requires Inv(cfg, s) && i < |s.reaps|
    ensures Simulates(cfg, s.db, ReapLabel(cfg, s.db, s.reaps[i]), ReapAct(cfg, s, i).db)
  {
    if Abandoned(s.db, s.reaps[i].job, s.reaps[i].threshold) {
      SnapshotGeneration(cfg, s, i);
    }
    ReapSimulates(cfg, s.db, s.reaps[i]);
  }

  lemma SystemSimulates(cfg: Config, s: State, a: Action)
    requires Inv(cfg, s) && Acts(s, a) && !a.AWorker? && !a.ASubmitStep?
    ensures Simulates(cfg, s.db, LabelOf(cfg, s, a), Apply(cfg, s, a).db)
  {
    if a.AReapAct? {
      ReapActSimulates(cfg, s, a.i);
    } else if a.ACancelAct? {
      CancelSimulates(cfg, s, a.c);
    } else {
      SweepSimulates(cfg, s, a);
    }
  }

  /** Every action of the protocol is a step of the one-owner machine, or invisible to it. */
  lemma ApplySimulates(cfg: Config, s: State, a: Action)
    requires Inv(cfg, s)
    ensures Simulates(cfg, s.db, LabelOf(cfg, s, a), Apply(cfg, s, a).db)
  {
    hide Simulates, Consistent, TicketsOk, EnvelopesOk, SweepsOk, LapsedOk, QuotaOk;
    if !Acts(s, a) {
      OthersLeaveRows(cfg, s, a);
      Invisible(cfg, s.db, Apply(cfg, s, a).db);
    } else if a.AWorker? {
      assert WorkerOk(s.db, a.w, s.workers[a.w]);
      WorkerSimulates(cfg, s, a.w, a.oracle);
    } else if a.ASubmitStep? {
      assert SubmitOk(s.db, a.i, s.submits[a.i]);
      SubmitSimulates(cfg, s, a.i, a.reuse, a.ttl, a.limited);
    } else {
      SystemSimulates(cfg, s, a);
    }
  }

  /** The labels a run goes through. */
  function Labels(cfg: Config, run: seq<Action>): seq<O.Label>
    decreases |run|
  {
    if run == [] then []
    else
      var before := run[..|run| - 1];
      Labels(cfg, before) + [LabelOf(cfg, Exec(cfg, START, before), run[|run| - 1])]
  }

  /** Every interleaved run projects onto a run of the one-owner machine. */
  lemma {:induction false} Refines(cfg: Config, run: seq<Action>)
    ensures O.After(cfg.maxAttempts, Labels(cfg, run)) == Some(Alpha(Exec(cfg, START, run).db))
    decreases |run|
  {
    hide Apply;
    if run == [] {
      assert Alpha(EMPTY) == [];
    } else {
      var before := run[..|run| - 1];
      var s, a := Exec(cfg, START, before), run[|run| - 1];
      Refines(cfg, before);
      Reachable(cfg, before);
      ApplySimulates(cfg, s, a);
      assert Labels(cfg, run)[..|Labels(cfg, run)| - 1] == Labels(cfg, before);
    }
  }

  lemma {:induction false} LabelsAre(cfg: Config, run: seq<Action>)
    ensures |Labels(cfg, run)| == |run|
    ensures forall p :: 0 <= p < |run| ==> Labels(cfg, run)[p] == LabelOf(cfg, Exec(cfg, START, run[..p]), run[p])
    decreases |run|
  {
    hide Exec, LabelOf;
    if run != [] {
      var before := run[..|run| - 1];
      LabelsAre(cfg, before);
      forall p | 0 <= p < |before| ensures before[..p] == run[..p] {
      }
    }
  }

  /** Action `p` of the run was worker `w`'s promotion of `b`, and no later action claimed the job. */
  predicate PromotedIn(cfg: Config, run: seq<Action>, p: nat, j: nat, w: nat, b: nat) {
    && p < |run| && LabelOf(cfg, Exec(cfg, START, run[..p]), run[p]) == O.Promote(j, w, b)
    && (forall q :: p < q < |run| ==> !O.Claims(LabelOf(cfg, Exec(cfg, START, run[..q]), run[q]), j))
  }

  /** An owner's label in a run is always the acting worker's own. */
  lemma OwnersActForThemselves(cfg: Config, s: State, w: nat, o: Oracle)
    requires w < |s.workers|
    ensures var l := LabelOf(cfg, s, AWorker(w, o));
            l.Promote? || l.Finish? || l.FinishAndWithdraw? || l.Break? || l.Stop? || l.Release? || l.Acquire? ==>
              l.w == w && l.j == s.workers[w].job
  {
  }
}
