/**
 * The whole job system as interleaved processes over the tables of `Database`.
 *
 * `run_conversion` and `submit_conversion_job` are cut at their writes, transactions and checks,
 * the sweeps into their snapshot and one action per item, requests into refresh and update. What a
 * process still writes after its update, in statements of its own, it owes: these are debts.
 * Processes, messages, snapshots and debts live in append-only sequences, and a run is a list of
 * actions: a disabled action does nothing, so every list is a run and every interleaving is a list.
 */
module Protocol {
  import opened Common
  import opened Jobs
  import opened Database

  // ---- Workers ------------------------------------------------------------------------------------

  datatype ErrorKind = Unsupported | Transient | Permanent

  /** Why an attempt is abandoned: JobFenced, JobCancelled, or any other exception. */
  datatype Cause = Superseded | CancelSeen | Error(kind: ErrorKind)

  /** Where a run of `run_conversion` stands: the shared access it performs next. */
  datatype Pc =
    | AtClaim
    | AtScan
    | AtCheckScan
    | AtValidated
    | AtBeatScan
    | AtCheckConvert
    | AtConvert
    | AtBeatConvert
    | AtCheckPromote
    | AtReportPromote
    | AtCreate
    | AtPromote(blob: nat)
    | AtRecheck(blob: nat)
    | AtDiscard(blob: nat, cause: Cause)
    | AtDone(blob: nat)
    | AtCancelled
    | AtUnsupported
    | AtRetry
    | AtFail(transient: bool)
    | AtDeadLetter
    | AtExit
    | Gone

  /** `generation`, `attempts` and `flagged` are the job object as `claim_job` returned it. */
  datatype Worker = Worker(message: nat, job: nat, pc: Pc, generation: nat, attempts: nat, flagged: bool)

  /** What the outside world decides in a worker's step: progress reports and the retention hours. */
  datatype Oracle = Oracle(report: Option<nat>, ttl: nat)

  // ---- Messages, cancellations, sweeps, submissions -----------------------------------------------

  /** `Unsent`: its sender has to write an event first. `Owed`: the broker has not got it yet. */
  datatype Place = Unsent | Owed | Queued | Lost | Acked

  /** A task message; `tried` once some worker ran `claim_job` for it. */
  datatype Message = Message(job: nat, place: Place, tried: bool)

  /**
   * What a process that committed an update still has to write in statements of its own: an event,
   * and after it either an outbox row or a task message. Each may be written at any later time, or
   * never, if the process raises or dies. The process may go on before it pays, which the code does
   * not do: what holds of these runs holds of the code's.
   */
  datatype Debt = Debt(job: nat, kind: EventKind, generation: nat, message: Option<nat>, event: Part, note: Part)

  /** The job as it stood when a late event was written; `closed`: the log already said that it was cancelled. */
  datatype Moment = Moment(generation: nat, status: Status, closed: bool)

  datatype Part = Needless | Due | Forgone | Written(at: Moment)

  datatype CancelOp = Immediate(job: nat) | Flag(job: nat) | Spent

  datatype ExpiryItem = ExpiryItem(job: nat, blob: Option<nat>, cutoff: nat)

  datatype PurgeItem = PurgeItem(job: nat, blob: nat)

  datatype Reason =
    | Mismatch
    | KeySpent
    | RateLimited
    | UploadTooLarge
    | TooManyActiveJobs
    | RacedMismatch
    | Fault

  /** `Spoilt`: the call raised after its job was committed, and discarded the job's upload. */
  datatype Outcome = MadeJob(job: nat) | Spoilt(job: nat) | FoundJob(job: nat) | ReusedJob(job: nat) | Refused(reason: Reason)

  datatype SubPc =
    | Looking
    | Persisting
    | Admitting(blob: nat)
    | Inserting(blob: nat)
    | Denying(blob: nat, reason: Reason)
    | Dropping(blob: nat, reason: Reason)
    | Verifying(blob: nat, job: nat)
    | DroppingRaced(blob: nat, job: nat)
    | Undeciding(job: nat)
    | Dispatching(blob: nat, job: nat)
    | Spoiling(blob: nat, job: nat)
    | Ended(outcome: Outcome)
    | Crashed(made: Option<nat>)

  /** The job a submission has committed. */
  function JobMade(pc: SubPc): Option<nat> {
    match pc
    case Dispatching(_, j) => Some(j)
    case Spoiling(_, j) => Some(j)
    case Ended(MadeJob(j)) => Some(j)
    case Ended(Spoilt(j)) => Some(j)
    case Crashed(made) => made
    case _ => None
  }

  datatype Submit = Submit(request: Request, pc: SubPc)

  /** `lapsed` records the claims whose heartbeat was once older than the stale limit, `debts` all debts ever made. */
  datatype State = State(db: Db, workers: seq<Worker>, messages: seq<Message>, cancels: seq<CancelOp>,
                         reaps: seq<ReapItem>, expiries: seq<ExpiryItem>, purges: seq<PurgeItem>,
                         orphans: seq<nat>, submits: seq<Submit>, debts: seq<Debt>,
                         lapsed: set<(nat, nat)>, cache: map<nat, nat>)

  const START := State(EMPTY, [], [], [], [], [], [], [], [], [], {}, map[])

  // ---- Worker steps -------------------------------------------------------------------------------

  function Clamp(percent: nat): nat {
    if percent > 100 then 100 else percent
  }

  function Goto(s: State, w: nat, pc: Pc): State
    requires w < |s.workers|
  {
    s.(workers := s.workers[w := s.workers[w].(pc := pc)])
  }

  function Write(s: State, w: nat, db: Db, pc: Pc): State
    requires w < |s.workers|
  {
    Goto(s.(db := db), w, pc)
  }

  function Post(s: State, job: nat): State {
    s.(messages := s.messages + [Message(job, Owed, false)])
  }

  /** A job whose message follows an event that is still to be written. */
  function Defer(s: State, job: nat, kind: EventKind, generation: nat): State {
    s.(messages := s.messages + [Message(job, Unsent, false)],
       debts := s.debts + [Debt(job, kind, generation, Some(|s.messages|), Due, Needless)])
  }

  function Try(messages: seq<Message>, m: nat): seq<Message> {
    if m < |messages| then messages[m := messages[m].(tried := true)] else messages
  }

  function Ack(messages: seq<Message>, m: nat): seq<Message> {
    if m < |messages| then messages[m := messages[m].(place := Acked)] else messages
  }

  function ClaimStep(s: State, w: nat): State
    requires w < |s.workers|
  {
    var wk := s.workers[w];
    var (db', claim) := ClaimJob(s.db, wk.job, w);
    var s' := s.(db := db', messages := Try(s.messages, wk.message));
    match claim
    case NotGranted => Goto(s', w, AtExit)
    case Granted(g, attempts, flagged) =>
      s'.(workers := s.workers[w := wk.(pc := AtScan, generation := g, attempts := attempts, flagged := flagged)])
  }

  /** A progress report: the cache write is not fenced, the row write is. */
  function Report(s: State, w: nat, percent: nat, pc: Pc): State
    requires w < |s.workers|
  {
    var wk := s.workers[w];
    Write(s.(cache := s.cache[wk.job := Clamp(percent)]), w,
          Progress(s.db, wk.job, wk.generation, Clamp(percent)), pc)
  }

  /** `raise_if_cancelled`. */
  function Check(s: State, w: nat, pc: Pc): State
    requires w < |s.workers|
  {
    var wk := s.workers[w];
    if wk.job >= |s.db.jobs| then Goto(s, w, AtExit)
    else if s.db.jobs[wk.job].generation != wk.generation then Goto(s, w, AtExit)
    else if s.db.jobs[wk.job].cancelRequested then Goto(s, w, AtCancelled)
    else Goto(s, w, pc)
  }

  /** Which handler of `run_conversion` an exception reaches. */
  function Handler(cause: Cause): Pc {
    match cause
    case Superseded => AtExit
    case CancelSeen => AtCancelled
    case Error(Unsupported) => AtUnsupported
    case Error(Transient) => AtRetry
    case Error(Permanent) => AtFail(false)
  }

  function PromoteStep(s: State, w: nat, b: nat): State
    requires w < |s.workers|
  {
    var wk := s.workers[w];
    var (db', ok) := PromoteOutput(s.db, wk.job, wk.generation, b);
    if !ok then Goto(s, w, AtRecheck(b))
    else if b !in s.db.blobs then Goto(s, w, AtDiscard(b, Error(Permanent))) // foreign key violation
    else Write(s, w, db', AtDone(b))
  }

  function RecheckStep(s: State, w: nat, b: nat): State
    requires w < |s.workers|
  {
    var wk := s.workers[w];
    if wk.job < |s.db.jobs| && s.db.jobs[wk.job].generation == wk.generation && s.db.jobs[wk.job].cancelRequested
    then Goto(s, w, AtDiscard(b, CancelSeen))
    else Goto(s, w, AtDiscard(b, Superseded))
  }

  /** A transient failure: schedule a retry if the budget allows and the row still admits it. */
  function RetryStep(cfg: Config, s: State, w: nat): State
    requires w < |s.workers|
  {
    var wk := s.workers[w];
    if wk.attempts >= cfg.maxAttempts then Goto(s, w, AtFail(true))
    else
      var (db', ok) := RetryTransition(s.db, wk.job, wk.generation, wk.flagged);
      if ok then Defer(Write(s, w, db', AtExit), wk.job, RetryScheduled(wk.attempts), wk.generation)
      else Write(s, w, db', AtFail(true))
  }

  function ConcludeStep(s: State, w: nat, status: Status, percent: Option<nat>, ttl: nat, deadLetter: bool): State
    requires w < |s.workers| && Verdict(status)
  {
    var wk := s.workers[w];
    var (db', ok) := TerminalTransition(s.db, wk.job, wk.generation, status, percent, ttl);
    Write(s, w, db', if ok && deadLetter then AtDeadLetter else AtExit)
  }

  /** The progress reports and heartbeats between the checks. */
  function ProgressStep(s: State, w: nat, o: Oracle): State
    requires w < |s.workers|
  {
    var j, g := s.workers[w].job, s.workers[w].generation;
    match s.workers[w].pc
    case AtScan => Report(s, w, 5, AtCheckScan)
    case AtValidated => Write(s, w, Progress(s.db, j, g, 10), AtBeatScan)
    case AtBeatScan => Write(s, w, Heartbeat(s.db, j, g), AtCheckConvert)
    case AtConvert =>
      if o.report.Some? then Report(s, w, o.report.value, AtConvert) else Goto(s, w, AtBeatConvert)
    case AtBeatConvert => Write(s, w, Heartbeat(s.db, j, g), AtCheckPromote)
    case AtReportPromote => if o.report.Some? then Report(s, w, 96, AtCreate) else Goto(s, w, AtCreate)
    case _ => s
  }

  function CheckStep(s: State, w: nat): State
    requires w < |s.workers|
  {
    match s.workers[w].pc
    case AtCheckScan => Check(s, w, AtValidated)
    case AtCheckConvert => Check(s, w, AtConvert)
    case AtCheckPromote => Check(s, w, AtReportPromote)
    case _ => s
  }

  /** Storing, promoting and discarding the output. */
  function OutputStep(s: State, w: nat): State
    requires w < |s.workers|
  {
    var wk := s.workers[w];
    match wk.pc
    case AtCreate => Write(s, w, PersistBlob(s.db, Conversion(wk.job, wk.generation, w)), AtPromote(|s.db.made|))
    case AtPromote(b) => PromoteStep(s, w, b)
    case AtRecheck(b) => RecheckStep(s, w, b)
    case AtDiscard(b, cause) => Write(s, w, DeleteBlob(s.db, b), Handler(cause))
    case _ => s
  }

  /** The last writes of an attempt. */
  function VerdictStep(cfg: Config, s: State, w: nat, ttl: nat): State
    requires w < |s.workers|
  {
    match s.workers[w].pc
    case AtDone(_) => ConcludeStep(s, w, Done, Some(100), ttl, false)
    case AtCancelled => ConcludeStep(s, w, Cancelled, Some(0), 0, false)
    case AtUnsupported => ConcludeStep(s, w, Failed, None, 0, false)
    case AtRetry => RetryStep(cfg, s, w)
    case AtFail(transient) => ConcludeStep(s, w, Failed, None, 0, transient)
    case AtDeadLetter => Write(s, w, EmitDeadLetter(s.db, s.workers[w].job), AtExit)
    case _ => s
  }

  function WorkerStep(cfg: Config, s: State, w: nat, o: Oracle): State
    requires w < |s.workers|
  {
    var wk := s.workers[w];
    match wk.pc
    case AtClaim => ClaimStep(s, w)
    case AtScan | AtValidated | AtBeatScan | AtConvert | AtBeatConvert | AtReportPromote => ProgressStep(s, w, o)
    case AtCheckScan | AtCheckConvert | AtCheckPromote => CheckStep(s, w)
    case AtCreate | AtPromote(_) | AtRecheck(_) | AtDiscard(_, _) => OutputStep(s, w)
    case AtDone(_) | AtCancelled | AtUnsupported | AtRetry | AtFail(_) | AtDeadLetter => VerdictStep(cfg, s, w, o.ttl)
    case AtExit => Goto(s.(messages := Ack(s.messages, wk.message)), w, Gone)
    case Gone => s
  }

  /** An exception where the worker stands; a transaction it interrupts has no effect. */
  function WorkerRaise(s: State, w: nat, kind: ErrorKind): State
    requires w < |s.workers|
  {
    var wk := s.workers[w];
    match wk.pc
    case AtClaim => // the task fails and the broker drops its message
      Goto(s.(messages := Lose(s.messages, wk.message)), w, Gone)
    case AtPromote(b) => Goto(s, w, AtDiscard(b, Error(kind)))
    case AtRecheck(b) => Goto(s, w, AtDiscard(b, Error(kind)))
    case AtDiscard(_, _) => s // exceptions while discarding are swallowed
    case AtCancelled | AtUnsupported | AtRetry | AtFail(_) | AtDeadLetter | AtExit =>
      Goto(s, w, AtExit)
    case Gone => s
    case _ => Goto(s, w, Handler(Error(kind)))
  }

  function Lose(messages: seq<Message>, m: nat): seq<Message> {
    if m < |messages| then messages[m := messages[m].(place := Lost)] else messages
  }

  // ---- Cancel requests ------------------------------------------------------------------------------

  /** The refresh of `request_cancel`, which decides what it will try. */
  function CancelRead(s: State, j: nat): State {
    if j >= |s.db.jobs| then s
    else if s.db.jobs[j].status.Waiting() then s.(cancels := s.cancels + [Immediate(j)])
    else if s.db.jobs[j].cancelRequested then s
    else s.(cancels := s.cancels + [Flag(j)])
  }

  /** The update; a request that changed the row owes its event, and for a cancelled job the outbox row. */
  function CancelAct(s: State, c: nat): State {
    if c >= |s.cancels| || s.cancels[c].Spent? || s.cancels[c].job >= |s.db.jobs| then s
    else
      var j := s.cancels[c].job;
      s.(db := if s.cancels[c].Immediate? then CancelWaiting(s.db, j) else SetCancelFlag(s.db, j),
         cancels := s.cancels[c := Spent], debts := s.debts + CancelDebts(s.db, s.cancels[c]))
  }

  function CancelDebts(db: Db, op: CancelOp): seq<Debt>
    requires !op.Spent? && op.job < |db.jobs|
  {
    var row := db.jobs[op.job];
    if op.Immediate? then
      if row.status.Waiting() then [Debt(op.job, CancelledOff, row.generation, None, Due, Due)] else []
    else if !row.cancelRequested then [Debt(op.job, CancelAsked, row.generation, None, Due, Needless)] else []
  }

  // ---- Late statements ------------------------------------------------------------------------------

  predicate SaysCancelled(events: seq<JobEvent>, j: nat) {
    JobEvent(j, CancelledOff) in events || JobEvent(j, Concluded(Cancelled)) in events
  }

  function MomentOf(db: Db, j: nat): Moment
    requires j < |db.jobs|
  {
    Moment(db.jobs[j].generation, db.jobs[j].status, SaysCancelled(db.events, j))
  }

  function MovedOn(messages: seq<Message>, m: Option<nat>, place: Place): seq<Message> {
    if m.Some? && m.value < |messages| && messages[m.value].place.Unsent?
    then messages[m.value := messages[m.value].(place := place)] else messages
  }

  /** The next late statement of debt `i`: its event, which frees its message, or its outbox row. */
  function Pay(s: State, i: nat): State {
    if i >= |s.debts| || s.debts[i].job >= |s.db.jobs| then s
    else
      var d := s.debts[i];
      var now := Written(MomentOf(s.db, d.job));
      if d.event.Due? then
        s.(db := Log(s.db, d.job, d.kind), debts := s.debts[i := d.(event := now)],
           messages := MovedOn(s.messages, d.message, Owed))
      else if d.note.Due? then
        s.(db := Enqueue(s.db, Note(d.job, NoteCancelled)), debts := s.debts[i := d.(note := now)])
      else s
  }

  function Forgo(part: Part): Part {
    if part.Due? then Forgone else part
  }

  /** The process raises or dies: what debt `i` still owes will not be written. */
  function Default(s: State, i: nat): State {
    if i >= |s.debts| then s
    else
      var d := s.debts[i];
      s.(debts := s.debts[i := d.(event := Forgo(d.event), note := Forgo(d.note))],
         messages := if d.event.Due? then MovedOn(s.messages, d.message, Lost) else s.messages)
  }

  // ---- Sweeps ---------------------------------------------------------------------------------------

  function ReapSnapshot(s: State, j: nat): State {
    var threshold := s.db.now - STALE_PROCESSING_AFTER;
    if Abandoned(s.db, j, threshold)
    then s.(reaps := s.reaps + [ReapItem(j, s.db.jobs[j].attempts, s.db.jobs[j].cancelRequested, threshold)])
    else s
  }

  function ReapAct(cfg: Config, s: State, i: nat): State {
    if i >= |s.reaps| then s
    else
      var (db', requeued) := Reap(cfg, s.db, s.reaps[i]);
      if requeued then Defer(s.(db := db'), s.reaps[i].job, RequeuedStale, s.db.jobs[s.reaps[i].job].generation)
      else s.(db := db')
  }

  function ExpirySnapshot(s: State, j: nat): State {
    if j < |s.db.jobs| && s.db.jobs[j].status.Done? && s.db.jobs[j].expiresAt.Some?
       && s.db.jobs[j].expiresAt.value <= s.db.now
    then s.(expiries := s.expiries + [ExpiryItem(j, s.db.jobs[j].output, s.db.now)])
    else s
  }

  function ExpiryAct(s: State, i: nat): State {
    if i >= |s.expiries| then s
    else s.(db := ExpireOutput(s.db, s.expiries[i].job, s.expiries[i].blob, s.expiries[i].cutoff))
  }

  predicate PurgeDue(cfg: Config, db: Db, j: nat) {
    && j < |db.jobs| && db.jobs[j].status.Terminal()
    && db.jobs[j].input in db.blobs && db.blobs[db.jobs[j].input].deletedAt.None?
    && db.jobs[j].createdAt + cfg.inputTtl < db.now
    && (db.jobs[j].finishedAt.Some? ==> db.jobs[j].finishedAt.value + cfg.inputTtl < db.now)
  }

  function PurgeSnapshot(cfg: Config, s: State, j: nat): State {
    if PurgeDue(cfg, s.db, j) then s.(purges := s.purges + [PurgeItem(j, s.db.jobs[j].input)]) else s
  }

  function PurgeAct(s: State, i: nat): State {
    if i >= |s.purges| then s else s.(db := Shred(s.db, s.purges[i].blob))
  }

  /** Older than the collection window and referenced by no job. */
  predicate Collectable(cfg: Config, db: Db, b: nat) {
    b in db.blobs && b < |db.made| && db.made[b].at + cfg.gcWindow < db.now && Unlinked(db, b)
  }

  function GcSnapshot(cfg: Config, s: State, b: nat): State {
    if Collectable(cfg, s.db, b) then s.(orphans := s.orphans + [b]) else s
  }

  function GcAct(s: State, i: nat): State {
    if i >= |s.orphans| then s else s.(db := DeleteBlob(s.db, s.orphans[i]))
  }

  // ---- Submissions ------------------------------------------------------------------------------------

  function Move(s: State, i: nat, db: Db, pc: SubPc): State
    requires i < |s.submits|
  {
    s.(db := db, submits := s.submits[i := s.submits[i].(pc := pc)])
  }

  /** The idempotency fast path and the search for a reusable output; nothing is written. */
  function Lookup(db: Db, r: Request, reuse: Option<nat>, ttl: nat, limited: bool): SubPc {
    match FindJob(db.jobs, r)
    case Some(j) =>
      if !Matches(db.jobs[j].request, r) then Ended(Refused(Mismatch))
      else if Returnable(db, j) then Ended(FoundJob(j))
      else Ended(Refused(KeySpent))
    case None =>
      if reuse.Some? && reuse.value < |db.jobs| && Reusable(db, reuse.value, r, ttl) then Ended(ReusedJob(reuse.value))
      else if limited then Ended(Refused(RateLimited))
      else Persisting
  }

  /** Nobody holds the quota row of the workspace. */
  predicate QuotaFree(s: State, workspace: nat) {
    forall k :: 0 <= k < |s.submits| ==> s.submits[k].pc.Inserting? ==> s.submits[k].request.workspace != workspace
  }

  function AdmitStep(cfg: Config, s: State, i: nat, b: nat): State
    requires i < |s.submits|
  {
    var r := s.submits[i].request;
    if !QuotaFree(s, r.workspace) then s // waits for the row lock
    else
      match ReserveQuota(cfg, s.db, r)
      case TooLarge => Move(s, i, s.db, Denying(b, UploadTooLarge))
      case TooManyActive => Move(s, i, s.db, Denying(b, TooManyActiveJobs))
      case Admitted => Move(s, i, s.db, Inserting(b))
  }

  function InsertStep(s: State, i: nat, b: nat): State
    requires i < |s.submits|
  {
    var r := s.submits[i].request;
    var (db', j, isNew) := GetOrCreate(s.db, i, r, b);
    if !isNew then Move(s, i, db', Verifying(b, j))
    else if b !in s.db.blobs then Move(s, i, s.db, Dropping(b, Fault)) // foreign key violation
    else Post(Move(s, i, db', Dispatching(b, j)), j)
  }

  function SubmitStep(cfg: Config, s: State, i: nat, reuse: Option<nat>, ttl: nat, limited: bool): State
    requires i < |s.submits|
  {
    var r := s.submits[i].request;
    match s.submits[i].pc
    case Looking => Move(s, i, s.db, Lookup(s.db, r, reuse, ttl, limited))
    case Persisting => Move(s, i, PersistBlob(s.db, Upload(i)), Admitting(|s.db.made|))
    case Admitting(b) => AdmitStep(cfg, s, i, b)
    case Inserting(b) => InsertStep(s, i, b)
    case Denying(b, reason) => Move(s, i, s.db.(denied := s.db.denied + {i}), Dropping(b, reason))
    case Dropping(b, reason) => Move(s, i, DeleteBlob(s.db, b), Ended(Refused(reason)))
    case Verifying(b, j) =>
      if j < |s.db.jobs| && Matches(s.db.jobs[j].request, r)
      then Move(s, i, s.db, DroppingRaced(b, j))
      else Move(s, i, s.db, Ended(Refused(RacedMismatch)))
    case DroppingRaced(b, j) => Move(s, i, DeleteBlob(s.db, b), Undeciding(j))
    case Undeciding(j) => Move(s, i, s.db.(allowed := s.db.allowed - {i}), Ended(FoundJob(j)))
    case Dispatching(_, j) => Move(s, i, s.db, Ended(MadeJob(j)))
    case Spoiling(b, j) => Move(s, i, DeleteBlob(s.db, b), Ended(Spoilt(j)))
    case Ended(_) => s
    case Crashed(_) => s
  }

  /**
   * An exception inside the guarded part of a submission: roll back, then discard the upload. The
   * dispatch is inside, too, but its transaction has committed by then.
   */
  function SubmitFault(s: State, i: nat): State
    requires i < |s.submits|
  {
    match s.submits[i].pc
    case Admitting(b) => Move(s, i, s.db, Dropping(b, Fault))
    case Inserting(b) => Move(s, i, s.db, Dropping(b, Fault))
    case Denying(b, _) => Move(s, i, s.db, Dropping(b, Fault))
    case Dispatching(b, j) => Move(s, i, s.db, Spoiling(b, j))
    case _ => s
  }

  // ---- Time -------------------------------------------------------------------------------------------

  /** The claims whose heartbeat is older than the stale limit at `now`. */
  function Stale(jobs: seq<Job>, now: int): set<(nat, nat)> {
    set j | 0 <= j < |jobs| && jobs[j].status.Processing? && jobs[j].StaleBefore(now - STALE_PROCESSING_AFTER)
      :: (j, jobs[j].generation)
  }

  function Tick(s: State, d: nat): State {
    s.(db := s.db.(now := s.db.now + d), lapsed := s.lapsed + Stale(s.db.jobs, s.db.now + d))
  }

  // ---- Actions and runs ---------------------------------------------------------------------------------

  datatype Action =
    | ATick(seconds: nat)
    | ASubmit(request: Request)
    | ASubmitStep(i: nat, reuse: Option<nat>, ttl: nat, limited: bool)
    | ASubmitFault(i: nat)
    | ASubmitCrash(i: nat)
    | ADispatch(m: nat)
    | ALoseDispatch(m: nat)
    | ARevoke(m: nat)
    | ADeliver(m: nat)
    | AWorker(w: nat, oracle: Oracle)
    | ARaise(w: nat, kind: ErrorKind)
    | ACrash(w: nat)
    | ACancelRead(j: nat)
    | ACancelAct(c: nat)
    | APay(i: nat)
    | ADefault(i: nat)
    | AReapSnapshot(j: nat)
    | AReapAct(i: nat)
    | AExpirySnapshot(j: nat)
    | AExpiryAct(i: nat)
    | APurgeSnapshot(j: nat)
    | APurgeAct(i: nat)
    | AGcSnapshot(b: nat)
    | AGcAct(i: nat)
    | APurgeNote(note: Note)

  function MoveMessage(s: State, m: nat, from: Place, to: Place): State {
    if m < |s.messages| && s.messages[m].place == from
    then s.(messages := s.messages[m := s.messages[m].(place := to)])
    else s
  }

  /** Revoking the task of a cancelled job. */
  function Revoke(s: State, m: nat): State {
    if m < |s.messages| && s.messages[m].job < |s.db.jobs| && s.db.jobs[s.messages[m].job].status.Cancelled?
    then s.(messages := Ack(s.messages, m))
    else s
  }

  /** At-least-once delivery: a message may be delivered again until it is acknowledged. */
  function Deliver(s: State, m: nat): State {
    if m < |s.messages| && s.messages[m].place.Queued?
    then s.(workers := s.workers + [Worker(m, s.messages[m].job, AtClaim, 0, 0, false)])
    else s
  }

  function Apply(cfg: Config, s: State, a: Action): State {
    match a
    case ATick(d) => Tick(s, d)
    case ASubmit(r) => s.(submits := s.submits + [Submit(r, Looking)])
    case ASubmitStep(i, reuse, ttl, limited) =>
      if i < |s.submits| then SubmitStep(cfg, s, i, reuse, ttl, limited) else s
    case ASubmitFault(i) => if i < |s.submits| then SubmitFault(s, i) else s
    case ASubmitCrash(i) =>
      if i < |s.submits| && !s.submits[i].pc.Ended? then Move(s, i, s.db, Crashed(JobMade(s.submits[i].pc))) else s
    case ADispatch(m) => MoveMessage(s, m, Owed, Queued)
    case ALoseDispatch(m) => MoveMessage(s, m, Owed, Lost)
    case ARevoke(m) => Revoke(s, m)
    case ADeliver(m) => Deliver(s, m)
    case AWorker(w, o) => if w < |s.workers| then WorkerStep(cfg, s, w, o) else s
    case ARaise(w, kind) => if w < |s.workers| then WorkerRaise(s, w, kind) else s
    case ACrash(w) => if w < |s.workers| then Goto(s, w, Gone) else s
    case ACancelRead(j) => CancelRead(s, j)
    case ACancelAct(c) => CancelAct(s, c)
    case APay(i) => Pay(s, i)
    case ADefault(i) => Default(s, i)
    case AReapSnapshot(j) => ReapSnapshot(s, j)
    case AReapAct(i) => ReapAct(cfg, s, i)
    case AExpirySnapshot(j) => ExpirySnapshot(s, j)
    case AExpiryAct(i) => ExpiryAct(s, i)
    case APurgeSnapshot(j) => PurgeSnapshot(cfg, s, j)
    case APurgeAct(i) => PurgeAct(s, i)
    case AGcSnapshot(b) => GcSnapshot(cfg, s, b)
    case AGcAct(i) => GcAct(s, i)
    case APurgeNote(n) => s.(db := s.db.(notes := s.db.notes - {n}))
  }

  /** The state after a run from `s`. */
  function Exec(cfg: Config, s: State, run: seq<Action>): State
    decreases |run|
  {
    if run == [] then s
    else Apply(cfg, Exec(cfg, s, run[..|run| - 1]), run[|run| - 1])
  }

  lemma {:induction false} ExecSplit(cfg: Config, s: State, a: seq<Action>, b: seq<Action>)
    ensures Exec(cfg, s, a + b) == Exec(cfg, Exec(cfg, s, a), b)
    decreases |b|
  {
    if b == [] {
      assert a + b == a;
    } else {
      assert (a + b)[..|a + b| - 1] == a + b[..|b| - 1];
      ExecSplit(cfg, s, a, b[..|b| - 1]);
    }
  }
}
