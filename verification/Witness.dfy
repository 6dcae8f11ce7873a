/**
 * Runs from the empty system that reach what the other modules talk about: a delivered job, and
 * every state in which the protocol promises less than one might expect.
 */
module Witness {
  import opened Common
  import opened Jobs
  import opened Database
  import opened DatabaseInvariant
  import opened Protocol
  import opened ProtocolInvariant
  import opened Runs
  import opened BytesSafety
  import Announcements
  import EventLog

  // ---- One submission, delivered to one worker --------------------------------------------------------

  /** The limits let one submission of `r` in. */
  predicate Admissible(cfg: Config, r: Request) {
    r.size <= cfg.maxUploadBytes && cfg.maxActiveJobs(r.workspace) > 0
  }

  const SUBMIT_ON: Action := ASubmitStep(0, None, 0, false)

  function Asked(r: Request, pc: SubPc): State {
    START.(submits := [Submit(r, pc)])
  }

  function WithUpload(r: Request, pc: SubPc): State {
    START.(db := PersistBlob(EMPTY, Upload(0)), submits := [Submit(r, pc)])
  }

  function Inserted(r: Request, pc: SubPc, place: Place): State {
    START.(db := InsertJob(PersistBlob(EMPTY, Upload(0)), 0, r, 0), submits := [Submit(r, pc)],
           messages := [Message(0, place, false)])
  }

  /** Job 0 is PENDING, and worker 0 has its message. */
  function Delivered(r: Request): State {
    Inserted(r, SubPc.Ended(MadeJob(0)), Queued).(workers := [Worker(0, 0, AtClaim, 0, 0, false)])
  }

  lemma Then(cfg: Config, s: State, run: seq<Action>, a: Action)
    ensures Exec(cfg, s, run + [a]) == Apply(cfg, Exec(cfg, s, run), a)
  {
    hide Apply;
    assert (run + [a])[..|run|] == run;
  }

  lemma AskedSteps(cfg: Config, r: Request)
    ensures Apply(cfg, START, ASubmit(r)) == Asked(r, Looking)
    ensures Apply(cfg, Asked(r, Looking), SUBMIT_ON) == Asked(r, Persisting)
    ensures Apply(cfg, Asked(r, Persisting), SUBMIT_ON) == WithUpload(r, Admitting(0))
  {
  }

  lemma AdmittedStep(cfg: Config, r: Request)
    requires Admissible(cfg, r)
    ensures Apply(cfg, WithUpload(r, Admitting(0)), SUBMIT_ON) == WithUpload(r, Inserting(0))
  {
  }

  lemma InsertedStep(cfg: Config, r: Request)
    ensures Apply(cfg, WithUpload(r, Inserting(0)), SUBMIT_ON) == Inserted(r, Dispatching(0, 0), Owed)
  {
    assert FindJob([], r) == None;
  }

  /** A submission up to its insert. */
  function UntilInsert(r: Request): seq<Action> {
    [ASubmit(r)] + [SUBMIT_ON] + [SUBMIT_ON] + [SUBMIT_ON]
  }

  lemma ReachesInsert(cfg: Config, r: Request)
    requires Admissible(cfg, r)
    ensures Exec(cfg, START, UntilInsert(r)) == WithUpload(r, Inserting(0))
  {
    hide Apply;
    AskedSteps(cfg, r);
    AdmittedStep(cfg, r);
    Then(cfg, START, [], ASubmit(r));
    assert [] + [ASubmit(r)] == [ASubmit(r)];
    Then(cfg, START, [ASubmit(r)], SUBMIT_ON);
    Then(cfg, START, [ASubmit(r)] + [SUBMIT_ON], SUBMIT_ON);
    Then(cfg, START, [ASubmit(r)] + [SUBMIT_ON] + [SUBMIT_ON], SUBMIT_ON);
  }

  function UntilDispatch(r: Request): seq<Action> {
    UntilInsert(r) + [SUBMIT_ON]
  }

  lemma ReachesDispatch(cfg: Config, r: Request)
    requires Admissible(cfg, r)
    ensures Exec(cfg, START, UntilDispatch(r)) == Inserted(r, Dispatching(0, 0), Owed)
  {
    hide Apply;
    ReachesInsert(cfg, r);
    InsertedStep(cfg, r);
    Then(cfg, START, UntilInsert(r), SUBMIT_ON);
  }

  /** A submission and the delivery of its message. */
  function UntilDelivery(r: Request): seq<Action> {
    UntilDispatch(r) + [SUBMIT_ON] + [ADispatch(0)] + [ADeliver(0)]
  }

  lemma DeliverySteps(cfg: Config, r: Request)
    ensures Apply(cfg, Inserted(r, Dispatching(0, 0), Owed), SUBMIT_ON) == Inserted(r, SubPc.Ended(MadeJob(0)), Owed)
    ensures Apply(cfg, Inserted(r, SubPc.Ended(MadeJob(0)), Owed), ADispatch(0)) == Inserted(r, SubPc.Ended(MadeJob(0)), Queued)
    ensures Apply(cfg, Inserted(r, SubPc.Ended(MadeJob(0)), Queued), ADeliver(0)) == Delivered(r)
  {
  }

  lemma ReachesDelivery(cfg: Config, r: Request)
    requires Admissible(cfg, r)
    ensures Exec(cfg, START, UntilDelivery(r)) == Delivered(r)
  {
    hide Apply;
    ReachesDispatch(cfg, r);
    DeliverySteps(cfg, r);
    Then(cfg, START, UntilDispatch(r), SUBMIT_ON);
    Then(cfg, START, UntilDispatch(r) + [SUBMIT_ON], ADispatch(0));
    Then(cfg, START, UntilDispatch(r) + [SUBMIT_ON] + [ADispatch(0)], ADeliver(0));
  }

  // ---- An attempt that nobody disturbs ----------------------------------------------------------------

  /** Worker `w` stands at `pc` and holds the claim of job `j`, whose cancellation nobody requested. */
  predicate Holding(s: State, w: nat, j: nat, pc: Pc) {
    && w < |s.workers| && s.workers[w].job == j && s.workers[w].pc == pc
    && Fence(s.db, j, s.workers[w].generation) && !s.db.jobs[j].cancelRequested
  }

  /** The accesses from the claim to the storing of the output. */
  function Stage(n: nat): Pc {
    match n
    case 0 => AtScan
    case 1 => AtCheckScan
    case 2 => AtValidated
    case 3 => AtBeatScan
    case 4 => AtCheckConvert
    case 5 => AtConvert
    case 6 => AtBeatConvert
    case 7 => AtCheckPromote
    case 8 => AtReportPromote
    case _ => AtCreate
  }

  function Turn(w: nat, ttl: nat): Action {
    AWorker(w, Oracle(None, ttl))
  }

  function Turns(w: nat, ttl: nat, n: nat): seq<Action> {
    if n == 0 then [] else Turns(w, ttl, n - 1) + [Turn(w, ttl)]
  }

  lemma OneMoreTurn(w: nat, ttl: nat, n: nat)
    ensures Turns(w, ttl, n + 1) == Turns(w, ttl, n) + [Turn(w, ttl)]
  {
  }

  lemma NextStage(cfg: Config, s: State, w: nat, j: nat, ttl: nat, n: nat)
    requires n < 9 && Holding(s, w, j, Stage(n))
    ensures var s' := Apply(cfg, s, Turn(w, ttl));
            && Holding(s', w, j, Stage(n + 1)) && OnlyBeats(s.db, s'.db, j)
            && s' == s.(db := s'.db, cache := s'.cache, workers := s.workers[w := s.workers[w].(pc := Stage(n + 1))])
  {
    hide OutputStep, VerdictStep, ClaimStep;
  }

  lemma {:induction false} ReachesStage(cfg: Config, s: State, w: nat, j: nat, ttl: nat, n: nat)
    requires n <= 9 && Holding(s, w, j, AtScan)
    ensures var s' := Exec(cfg, s, Turns(w, ttl, n));
            && Holding(s', w, j, Stage(n)) && OnlyBeats(s.db, s'.db, j)
            && s' == s.(db := s'.db, cache := s'.cache, workers := s.workers[w := s.workers[w].(pc := Stage(n))])
  {
    hide Apply;
    if n == 0 {
      assert s.workers[w := s.workers[w].(pc := AtScan)] == s.workers;
    } else {
      ReachesStage(cfg, s, w, j, ttl, n - 1);
      Then(cfg, s, Turns(w, ttl, n - 1), Turn(w, ttl));
      NextStage(cfg, Exec(cfg, s, Turns(w, ttl, n - 1)), w, j, ttl, n - 1);
    }
  }

  /** The output is stored under a fresh name. */
  lemma StoresOutput(cfg: Config, s: State, w: nat, j: nat, ttl: nat)
    requires Holding(s, w, j, AtCreate)
    ensures var s' := Apply(cfg, s, Turn(w, ttl)); var b := |s.db.made|;
            && Holding(s', w, j, AtPromote(b)) && s'.db == PersistBlob(s.db, Conversion(j, s.workers[w].generation, w))
            && s' == s.(db := s'.db, workers := s.workers[w := s.workers[w].(pc := AtPromote(b))])
  {
  }

  lemma PromotesOutput(cfg: Config, s: State, w: nat, j: nat, ttl: nat, b: nat)
    requires Holding(s, w, j, AtPromote(b)) && b in s.db.blobs
    ensures var s' := Apply(cfg, s, Turn(w, ttl));
            && Holding(s', w, j, AtDone(b))
            && s'.db == Put(s.db, j, s.db.jobs[j].(output := Some(b), percent := 98))
            && s' == s.(db := s'.db, workers := s.workers[w := s.workers[w].(pc := AtDone(b))])
  {
  }

  /** Worker `w` has stored its output and stands before the promotion. */
  lemma ReachesPromotion(cfg: Config, s: State, w: nat, j: nat, ttl: nat)
    requires Holding(s, w, j, AtScan)
    ensures var s' := Exec(cfg, s, Turns(w, ttl, 10)); var b := |s.db.made|;
            && Holding(s', w, j, AtPromote(b)) && b in s'.db.blobs && b in s'.db.bytes && s'.db.blobs[b] == Blob(None)
            && |s'.db.made| == b + 1 && s'.db.made[b].at == s.db.now && s'.db.now == s.db.now
            && s'.db.ledger == s.db.ledger && s'.db.announced == s.db.announced
            && s'.db.jobs[j].request == s.db.jobs[j].request && s'.orphans == s.orphans && s'.cancels == s.cancels
            && s'.workers[w].generation == s.workers[w].generation
  {
    hide Apply, Exec, Turns;
    OneMoreTurn(w, ttl, 9);
    ReachesStage(cfg, s, w, j, ttl, 9);
    Then(cfg, s, Turns(w, ttl, 9), Turn(w, ttl));
    StoresOutput(cfg, Exec(cfg, s, Turns(w, ttl, 9)), w, j, ttl);
  }

  lemma ReachesVerdict(cfg: Config, s: State, w: nat, j: nat, ttl: nat)
    requires Holding(s, w, j, AtScan)
    ensures var s' := Exec(cfg, s, Turns(w, ttl, 11)); var b := |s.db.made|;
            && Holding(s', w, j, AtDone(b)) && s'.db.jobs[j].output == Some(b) && s'.db.bytes >= {b}
            && s'.db.ledger == s.db.ledger && s'.db.announced == s.db.announced
            && s'.db.jobs[j].request == s.db.jobs[j].request && s'.cancels == s.cancels
            && s'.workers[w].generation == s.workers[w].generation
  {
    hide Apply, Exec, Turns;
    OneMoreTurn(w, ttl, 10);
    ReachesPromotion(cfg, s, w, j, ttl);
    Then(cfg, s, Turns(w, ttl, 10), Turn(w, ttl));
    PromotesOutput(cfg, Exec(cfg, s, Turns(w, ttl, 10)), w, j, ttl, |s.db.made|);
  }

  lemma VerdictTurn(cfg: Config, s: State, w: nat, ttl: nat)
    requires w < |s.workers| && s.workers[w].pc.AtDone?
    ensures Apply(cfg, s, Turn(w, ttl)) == ConcludeStep(s, w, Done, Some(100), ttl, false)
  {
    hide ConcludeStep, ProgressStep, OutputStep, CheckStep, ClaimStep;
  }

  lemma Concludes(cfg: Config, s: State, w: nat, j: nat, ttl: nat, b: nat)
    requires Consistent(s.db) && ttl > 0
    requires w < |s.workers| && s.workers[w].job == j && s.workers[w].pc == AtDone(b)
    requires Fence(s.db, j, s.workers[w].generation)
    ensures var s' := Apply(cfg, s, Turn(w, ttl));
            && j < |s'.db.jobs| && s'.db.jobs[j].status.Done? && s'.db.jobs[j].output == s.db.jobs[j].output
            && s'.db.jobs[j].cancelRequested == s.db.jobs[j].cancelRequested
            && s'.db.ledger == s.db.ledger + [Charge(j, s.db.jobs[j].request.size)]
            && s'.db.announced == s.db.announced + [Note(j, NoteDone)]
            && s'.db.bytes == s.db.bytes
  {
    hide Consistent, WorkerStep, ProgressStep, OutputStep, CheckStep, ClaimStep;
    Unannounced(s.db, j, NoteDone);
    assert Apply(cfg, s, Turn(w, ttl)) == ConcludeStep(s, w, Done, Some(100), ttl, false) by { VerdictTurn(cfg, s, w, ttl); }
  }

  /**
   * Whatever state the system is in: the holder of an unflagged claim that is left alone for
   * twelve accesses delivers the job, with the output it stored itself, one ledger row of the
   * input size and one done notice.
   */
  lemma UndisturbedAttemptDelivers(cfg: Config, s: State, w: nat, j: nat, ttl: nat)
    requires Inv(cfg, s) && Holding(s, w, j, AtScan) && ttl > 0
    ensures var db' := Exec(cfg, s, Turns(w, ttl, 12)).db; var b := |s.db.made|;
            && j < |db'.jobs| && db'.jobs[j].status.Done? && db'.jobs[j].output == Some(b) && b in db'.bytes
            && db'.ledger == s.db.ledger + [Charge(j, s.db.jobs[j].request.size)]
            && db'.announced == s.db.announced + [Note(j, NoteDone)]
  {
    hide Apply, Exec, Turns, Consistent, WorkersOk, TicketsOk, EnvelopesOk, SweepsOk, LapsedOk, SubmitsOk, QuotaOk;
    OneMoreTurn(w, ttl, 11);
    ReachesVerdict(cfg, s, w, j, ttl);
    RunKeeps(cfg, s, Turns(w, ttl, 11));
    Then(cfg, s, Turns(w, ttl, 11), Turn(w, ttl));
    Concludes(cfg, Exec(cfg, s, Turns(w, ttl, 11)), w, j, ttl, |s.db.made|);
  }

  // ---- A delivered job ----------------------------------------------------------------------------------

  /** Worker 0 has claimed job 0, and nothing else has happened. */
  predicate FirstClaim(s: State, r: Request) {
    && Holding(s, 0, 0, AtScan) && s.workers == [Worker(0, 0, AtScan, 1, 1, false)]
    && s.messages == [Message(0, Queued, true)]
    && s.db.made == [Made(Upload(0), 0)] && |s.db.jobs| == 1 && s.db.jobs[0].request == r && s.db.jobs[0].generation == 1
    && s.db.jobs[0].attempts == 1 && s.db.jobs[0].heartbeat == Some(0)
    && s.db.ledger == [] && s.db.announced == [] && s.db.now == 0
    && s.db.events == [JobEvent(0, Created), JobEvent(0, Claimed(1, 0))]
    && s.cancels == [] && s.reaps == [] && s.orphans == [] && s.debts == []
  }

  lemma ClaimsDelivered(cfg: Config, r: Request, ttl: nat)
    ensures FirstClaim(Apply(cfg, Delivered(r), Turn(0, ttl)), r)
  {
  }

  function UntilClaim(r: Request, ttl: nat): seq<Action> {
    UntilDelivery(r) + [Turn(0, ttl)]
  }

  lemma ReachesClaim(cfg: Config, r: Request, ttl: nat)
    requires Admissible(cfg, r)
    ensures FirstClaim(Exec(cfg, START, UntilClaim(r, ttl)), r)
  {
    hide Apply;
    ReachesDelivery(cfg, r);
    Then(cfg, START, UntilDelivery(r), Turn(0, ttl));
    ClaimsDelivered(cfg, r, ttl);
  }

  /** Submit, dispatch, deliver, and let the worker work: the job is DONE, billed and announced once. */
  lemma DeliveryIsReachable(cfg: Config, r: Request, ttl: nat)
    requires Admissible(cfg, r) && ttl > 0
    ensures var db := Exec(cfg, START, UntilClaim(r, ttl) + Turns(0, ttl, 12)).db;
            && |db.jobs| > 0 && db.jobs[0].status.Done? && db.jobs[0].output == Some(1) && 1 in db.bytes
            && db.ledger == [Charge(0, r.size)] && db.announced == [Note(0, NoteDone)]
  {
    hide Apply, Inv;
    ReachesClaim(cfg, r, ttl);
    Reachable(cfg, UntilClaim(r, ttl));
    ExecSplit(cfg, START, UntilClaim(r, ttl), Turns(0, ttl, 12));
    UndisturbedAttemptDelivers(cfg, Exec(cfg, START, UntilClaim(r, ttl)), 0, 0, ttl);
  }

  // ---- Where the protocol promises less than one might expect -----------------------------------------

  /**
   * An exception in `claim_job` fails the task, and the broker drops its message: the job is PENDING,
   * and nothing is on its way to it.
   */
  lemma StrandedJobIsReachable(cfg: Config, r: Request, kind: ErrorKind)
    requires Admissible(cfg, r)
    ensures var s := Exec(cfg, START, UntilDelivery(r) + [ARaise(0, kind)]);
            && |s.db.jobs| == 1 && s.db.jobs[0].status.Pending? && !s.db.jobs[0].cancelRequested
            && s.messages == [Message(0, Lost, false)] && s.workers == [Worker(0, 0, Gone, 0, 0, false)] && s.debts == []
  {
    hide Apply;
    ReachesDelivery(cfg, r);
    Then(cfg, START, UntilDelivery(r), ARaise(0, kind));
    ClaimFault(cfg, r, kind);
  }

  lemma ClaimFault(cfg: Config, r: Request, kind: ErrorKind)
    ensures Apply(cfg, Delivered(r), ARaise(0, kind))
            == Delivered(r).(messages := [Message(0, Lost, false)], workers := [Worker(0, 0, Gone, 0, 0, false)])
  {
  }

  /** Job 0 was claimed `n` times, is not flagged, and its message can be delivered again. */
  predicate TakenOver(s: State, n: nat) {
    && |s.messages| > 0 && s.messages[0].job == 0 && s.messages[0].place.Queued?
    && |s.db.jobs| > 0 && !s.db.jobs[0].cancelRequested
    && s.db.jobs[0].attempts == s.db.jobs[0].generation == n
    && (if n == 0 then s.db.jobs[0].status.Pending?
        else s.db.jobs[0].status.Processing? && s.db.jobs[0].heartbeat.Some? && s.db.jobs[0].heartbeat.value <= s.db.now)
  }

  lemma Wait(cfg: Config, s: State, n: nat)
    requires TakenOver(s, n)
    ensures var s' := Apply(cfg, s, ATick(STALE_PROCESSING_AFTER + 1));
            TakenOver(s', n) && Claimable(s'.db, 0) && s'.workers == s.workers
  {
  }

  lemma DeliverAgain(cfg: Config, s: State, n: nat)
    requires TakenOver(s, n) && Claimable(s.db, 0)
    ensures var s' := Apply(cfg, s, ADeliver(0));
            && TakenOver(s', n) && Claimable(s'.db, 0) && |s'.workers| == |s.workers| + 1
            && s'.workers[|s.workers|] == Worker(0, 0, AtClaim, 0, 0, false)
  {
  }

  lemma ClaimAgain(cfg: Config, s: State, n: nat, w: nat)
    requires TakenOver(s, n) && Claimable(s.db, 0)
    requires w < |s.workers| && s.workers[w] == Worker(0, 0, AtClaim, 0, 0, false)
    ensures TakenOver(Apply(cfg, s, Turn(w, 0)), n + 1)
  {
    hide ProgressStep, OutputStep, CheckStep, VerdictStep;
  }

  /**
   * No budget bounds `attempt_count`: if its worker keeps dying before the reaper looks, a job is
   * claimed any number of times.
   */
  lemma {:induction false} AttemptsAreUnbounded(cfg: Config, r: Request, n: nat) returns (run: seq<Action>)
    requires Admissible(cfg, r)
    ensures TakenOver(Exec(cfg, START, run), n)
  {
    hide Apply, TakenOver;
    if n == 0 {
      run := UntilDispatch(r) + [SUBMIT_ON] + [ADispatch(0)];
      ReachesQueue(cfg, r);
      QueuedIsTakenOver(r);
    } else {
      run := AttemptsAreUnbounded(cfg, r, n - 1);
      var s := Exec(cfg, START, run);
      Wait(cfg, s, n - 1);
      var waited := Apply(cfg, s, ATick(STALE_PROCESSING_AFTER + 1));
      DeliverAgain(cfg, waited, n - 1);
      var delivered := Apply(cfg, waited, ADeliver(0));
      ClaimAgain(cfg, delivered, n - 1, |waited.workers|);
      Then(cfg, START, run, ATick(STALE_PROCESSING_AFTER + 1));
      Then(cfg, START, run + [ATick(STALE_PROCESSING_AFTER + 1)], ADeliver(0));
      Then(cfg, START, run + [ATick(STALE_PROCESSING_AFTER + 1)] + [ADeliver(0)], Turn(|waited.workers|, 0));
      run := run + [ATick(STALE_PROCESSING_AFTER + 1)] + [ADeliver(0)] + [Turn(|waited.workers|, 0)];
    }
  }

  lemma QueuedIsTakenOver(r: Request)
    ensures TakenOver(Inserted(r, SubPc.Ended(MadeJob(0)), Queued), 0)
  {
  }

  lemma ReachesQueue(cfg: Config, r: Request)
    requires Admissible(cfg, r)
    ensures Exec(cfg, START, UntilDispatch(r) + [SUBMIT_ON] + [ADispatch(0)]) == Inserted(r, SubPc.Ended(MadeJob(0)), Queued)
  {
    hide Apply;
    ReachesDispatch(cfg, r);
    DeliverySteps(cfg, r);
    Then(cfg, START, UntilDispatch(r), SUBMIT_ON);
    Then(cfg, START, UntilDispatch(r) + [SUBMIT_ON], ADispatch(0));
  }

  /** A user cancels the claimed job, the worker dies, the reaper cancels it: nobody is told. */
  function ReaperCancelRun(r: Request): seq<Action> {
    UntilClaim(r, 0) + [ACancelRead(0)] + [ACancelAct(0)] + [ATick(STALE_PROCESSING_AFTER + 1)] + [AReapSnapshot(0)] + [AReapAct(0)]
  }

  /** The flag of job 0 is set, and its event is owed. */
  function FlagSet(s: State): State
    requires |s.db.jobs| > 0
  {
    s.(cancels := [Spent], db := SetCancelFlag(s.db, 0),
       debts := s.debts + [Debt(0, CancelAsked, s.db.jobs[0].generation, None, Due, Needless)])
  }

  lemma FlagsClaimed(cfg: Config, s: State)
    requires Holding(s, 0, 0, AtScan) && s.cancels == []
    ensures Apply(cfg, s, ACancelRead(0)) == s.(cancels := [Flag(0)])
    ensures Apply(cfg, s.(cancels := [Flag(0)]), ACancelAct(0)) == FlagSet(s)
  {
  }

  lemma ReapsFlagged(cfg: Config, s: State)
    requires |s.db.jobs| > 0 && s.db.jobs[0].status.Processing? && s.db.jobs[0].cancelRequested && s.reaps == []
    requires s.db.jobs[0].heartbeat.Some? && s.db.jobs[0].heartbeat.value <= s.db.now
    ensures var ticked := Apply(cfg, s, ATick(STALE_PROCESSING_AFTER + 1));
            var seen := Apply(cfg, ticked, AReapSnapshot(0));
            var s' := Apply(cfg, seen, AReapAct(0));
            |s'.db.jobs| > 0 && s'.db.jobs[0].status.Cancelled? && s'.db.announced == s.db.announced
  {
  }

  lemma SilentCancelIsReachable(cfg: Config, r: Request)
    requires Admissible(cfg, r)
    ensures var db := Exec(cfg, START, ReaperCancelRun(r)).db;
            |db.jobs| > 0 && db.jobs[0].status.Cancelled? && db.announced == []
  {
    hide Apply;
    ReachesClaim(cfg, r, 0);
    var run := UntilClaim(r, 0);
    var s := Exec(cfg, START, run);
    FlagsClaimed(cfg, s);
    Then(cfg, START, run, ACancelRead(0));
    Then(cfg, START, run + [ACancelRead(0)], ACancelAct(0));
    run := run + [ACancelRead(0)] + [ACancelAct(0)];
    ReapsFlagged(cfg, Exec(cfg, START, run));
    Then(cfg, START, run, ATick(STALE_PROCESSING_AFTER + 1));
    Then(cfg, START, run + [ATick(STALE_PROCESSING_AFTER + 1)], AReapSnapshot(0));
    Then(cfg, START, run + [ATick(STALE_PROCESSING_AFTER + 1)] + [AReapSnapshot(0)], AReapAct(0));
  }

  /** The claim between the refresh and the update of a cancel request. */
  function DroppedRun(r: Request): seq<Action> {
    UntilDelivery(r) + [ACancelRead(0)] + [Turn(0, 0)] + [ACancelAct(0)]
  }

  lemma DropsRequest(cfg: Config, r: Request)
    ensures var asked := Apply(cfg, Delivered(r), ACancelRead(0));
            var claimed := Apply(cfg, asked, Turn(0, 0));
            var acted := Apply(cfg, claimed, ACancelAct(0));
            && asked.cancels == [Immediate(0)] && acted.cancels == [Spent] && |acted.db.jobs| > 0
            && acted.db.jobs[0].status.Processing? && !acted.db.jobs[0].cancelRequested
  {
    hide ProgressStep, OutputStep, CheckStep, VerdictStep, SubmitStep, WorkerRaise;
  }

  lemma DroppedRequestIsReachable(cfg: Config, r: Request)
    requires Admissible(cfg, r)
    ensures var s := Exec(cfg, START, DroppedRun(r));
            s.cancels == [Spent] && |s.db.jobs| > 0 && s.db.jobs[0].status.Processing? && !s.db.jobs[0].cancelRequested
  {
    hide Apply;
    ReachesDelivery(cfg, r);
    DropsRequest(cfg, r);
    Then(cfg, START, UntilDelivery(r), ACancelRead(0));
    Then(cfg, START, UntilDelivery(r) + [ACancelRead(0)], Turn(0, 0));
    Then(cfg, START, UntilDelivery(r) + [ACancelRead(0)] + [Turn(0, 0)], ACancelAct(0));
  }

  /** A request after the promotion does not stop the delivery. */
  function FlaggedDeliveryRun(r: Request): seq<Action> {
    UntilClaim(r, 1) + Turns(0, 1, 11) + [ACancelRead(0)] + [ACancelAct(0)] + [Turn(0, 1)]
  }

  lemma FlagsPromoted(cfg: Config, s: State, b: nat)
    requires Holding(s, 0, 0, AtDone(b)) && s.cancels == []
    ensures Apply(cfg, s, ACancelRead(0)) == s.(cancels := [Flag(0)])
    ensures Apply(cfg, s.(cancels := [Flag(0)]), ACancelAct(0)) == FlagSet(s)
  {
  }

  /** Up to the verdict: the output is promoted, and then the flag is set. */
  lemma ReachesFlagged(cfg: Config, r: Request)
    requires Admissible(cfg, r)
    ensures var s := Exec(cfg, START, UntilClaim(r, 1) + Turns(0, 1, 11) + [ACancelRead(0)] + [ACancelAct(0)]);
            && |s.workers| > 0 && s.workers[0].job == 0 && s.workers[0].pc == AtDone(1)
            && Fence(s.db, 0, s.workers[0].generation)
            && s.db.jobs[0].output == Some(1) && s.db.jobs[0].cancelRequested
  {
    hide Apply, Exec, Turns, UntilClaim, Inv;
    ReachesClaim(cfg, r, 1);
    var run := UntilClaim(r, 1);
    ReachesVerdict(cfg, Exec(cfg, START, run), 0, 0, 1);
    ExecSplit(cfg, START, run, Turns(0, 1, 11));
    run := run + Turns(0, 1, 11);
    FlagsPromoted(cfg, Exec(cfg, START, run), 1);
    Then(cfg, START, run, ACancelRead(0));
    Then(cfg, START, run + [ACancelRead(0)], ACancelAct(0));
  }

  lemma FlaggedDeliveryIsReachable(cfg: Config, r: Request)
    requires Admissible(cfg, r)
    ensures var db := Exec(cfg, START, FlaggedDeliveryRun(r)).db;
            |db.jobs| > 0 && db.jobs[0].status.Done? && db.jobs[0].output == Some(1) && db.jobs[0].cancelRequested
  {
    hide Apply, Exec, Turns, Inv, Consistent;
    ReachesFlagged(cfg, r);
    var run := UntilClaim(r, 1) + Turns(0, 1, 11) + [ACancelRead(0)] + [ACancelAct(0)];
    Reachable(cfg, run);
    InvConsistent(cfg, Exec(cfg, START, run));
    Concludes(cfg, Exec(cfg, START, run), 0, 0, 1, 1);
    Then(cfg, START, run, Turn(0, 1));
  }

  lemma InvConsistent(cfg: Config, s: State)
    requires Inv(cfg, s)
    ensures Consistent(s.db)
  {
  }

  /** A promotion after the collection window: the collector looks just before, and acts just after. */
  function LatePromotionRun(cfg: Config, r: Request): seq<Action> {
    UntilClaim(r, 1) + Turns(0, 1, 10) + [ATick(cfg.gcWindow + 1)]
  }

  lemma TickKeepsHolding(cfg: Config, s: State, w: nat, j: nat, pc: Pc, d: nat)
    requires Holding(s, w, j, pc)
    ensures var s' := Apply(cfg, s, ATick(d));
            Holding(s', w, j, pc) && s'.db == s.db.(now := s.db.now + d) && s'.workers == s.workers
  {
  }

  lemma ReachesLatePromotion(cfg: Config, r: Request)
    requires Admissible(cfg, r)
    ensures var s := Exec(cfg, START, LatePromotionRun(cfg, r));
            && Holding(s, 0, 0, AtPromote(1)) && 1 in s.db.blobs
            && |s.db.made| == 2 && s.db.made[1].at == 0 && s.db.now == cfg.gcWindow + 1
  {
    hide Apply, Exec, Turns, UntilClaim;
    ReachesClaim(cfg, r, 1);
    var run := UntilClaim(r, 1);
    ReachesPromotion(cfg, Exec(cfg, START, run), 0, 0, 1);
    ExecSplit(cfg, START, run, Turns(0, 1, 10));
    run := run + Turns(0, 1, 10);
    TickKeepsHolding(cfg, Exec(cfg, START, run), 0, 0, AtPromote(1), cfg.gcWindow + 1);
    Then(cfg, START, run, ATick(cfg.gcWindow + 1));
  }

  /** So some job is DONE and billed, and its output is gone. */
  lemma EmptyDeliveryIsReachable(cfg: Config, r: Request)
    requires Admissible(cfg, r)
    ensures var s := Exec(cfg, START, LatePromotionRun(cfg, r));
            |s.workers| > 0 && DeliveredEmpty(PromoteAmidCollection(cfg, s, 0, 1, 1).db, 0)
  {
    hide Apply, Exec, LatePromotionRun, Inv, PromoteAmidCollection;
    ReachesLatePromotion(cfg, r);
    Reachable(cfg, LatePromotionRun(cfg, r));
    PromotionKeptIffPrompt(cfg, Exec(cfg, START, LatePromotionRun(cfg, r)), 0, 1, 1);
  }

  /** An insert after the collection window. */
  function LateInsertRun(cfg: Config, r: Request): seq<Action> {
    UntilInsert(r) + [ATick(cfg.gcWindow + 1)] + [AGcSnapshot(0)] + [SUBMIT_ON] + [AGcAct(0)]
  }

  lemma LateSteps(cfg: Config, r: Request)
    ensures var ticked := Apply(cfg, WithUpload(r, Inserting(0)), ATick(cfg.gcWindow + 1));
            var seen := Apply(cfg, ticked, AGcSnapshot(0));
            && seen == ticked.(orphans := [0]) && ticked.submits == [Submit(r, Inserting(0))]
            && ticked.db == PersistBlob(EMPTY, Upload(0)).(now := cfg.gcWindow + 1) && ticked.messages == []
  {
  }

  lemma LateInsert(cfg: Config, s: State, r: Request)
    requires s.submits == [Submit(r, Inserting(0))] && s.db.jobs == [] && 0 in s.db.blobs && s.orphans == [0]
    ensures var inserted := Apply(cfg, s, SUBMIT_ON);
            var s' := Apply(cfg, inserted, AGcAct(0));
            && |s'.db.jobs| == 1 && s'.db.jobs[0].status.Pending? && s'.db.jobs[0].input == 0
            && 0 in s'.db.blobs && 0 !in s'.db.bytes
  {
    assert FindJob([], r) == None;
    var inserted := Apply(cfg, s, SUBMIT_ON);
    assert inserted.db == InsertJob(s.db, 0, r, 0) && inserted.orphans == [0];
    assert inserted.db.jobs[0].input == 0;
  }

  /** So some PENDING job has lost its input. */
  lemma LostInputIsReachable(cfg: Config, r: Request)
    requires Admissible(cfg, r)
    ensures var db := Exec(cfg, START, LateInsertRun(cfg, r)).db;
            |db.jobs| == 1 && db.jobs[0].status.Pending? && db.jobs[0].input == 0 && 0 in db.blobs && 0 !in db.bytes
  {
    hide Apply;
    ReachesInsert(cfg, r);
    LateSteps(cfg, r);
    var run := UntilInsert(r);
    Then(cfg, START, run, ATick(cfg.gcWindow + 1));
    Then(cfg, START, run + [ATick(cfg.gcWindow + 1)], AGcSnapshot(0));
    run := run + [ATick(cfg.gcWindow + 1)] + [AGcSnapshot(0)];
    LateInsert(cfg, Exec(cfg, START, run), r);
    Then(cfg, START, run, SUBMIT_ON);
    Then(cfg, START, run + [SUBMIT_ON], AGcAct(0));
  }

  /** The dispatch raises after the commit, and the handler discards the upload. */
  function SpoiltRun(r: Request): seq<Action> {
    UntilDispatch(r) + [ASubmitFault(0)] + [SUBMIT_ON]
  }

  lemma SpoilSteps(cfg: Config, r: Request)
    ensures Apply(cfg, Inserted(r, Dispatching(0, 0), Owed), ASubmitFault(0)) == Inserted(r, Spoiling(0, 0), Owed)
    ensures var s' := Apply(cfg, Inserted(r, Spoiling(0, 0), Owed), SUBMIT_ON);
            && SpoiltJob(s', 0) && s'.db.jobs[0].status.Pending? && s'.db.jobs[0].input == 0
            && 0 in s'.db.blobs && 0 !in s'.db.bytes
  {
    assert Inserted(r, Spoiling(0, 0), Owed).db.jobs[0].input == 0;
  }

  /** So a submission can raise, and leave a PENDING job without its input bytes. */
  lemma SpoiltJobIsReachable(cfg: Config, r: Request)
    requires Admissible(cfg, r)
    ensures var s := Exec(cfg, START, SpoiltRun(r));
            && SpoiltJob(s, 0) && s.db.jobs[0].status.Pending? && s.db.jobs[0].input == 0
            && 0 in s.db.blobs && 0 !in s.db.bytes
  {
    hide Apply;
    ReachesDispatch(cfg, r);
    SpoilSteps(cfg, r);
    Then(cfg, START, UntilDispatch(r), ASubmitFault(0));
    Then(cfg, START, UntilDispatch(r) + [ASubmitFault(0)], SUBMIT_ON);
  }

  // ---- Statements that come late ------------------------------------------------------------------------

  /** Worker 0 has scheduled a retry and owes its event; its message can be delivered again. */
  predicate RetryOwed(s: State) {
    && |s.workers| == 1 && |s.messages| == 2 && s.messages[0] == Message(0, Queued, true) && s.messages[1].place.Unsent?
    && |s.db.jobs| == 1 && s.db.jobs[0].status.Retrying? && s.db.jobs[0].generation == 1 && !s.db.jobs[0].cancelRequested
    && s.debts == [Debt(0, RetryScheduled(1), 1, Some(1), Due, Needless)]
    && s.db.events == [JobEvent(0, Created), JobEvent(0, Claimed(1, 0))]
  }

  /** Worker 1 has claimed the job before that event. */
  predicate ClaimedFirst(s: State) {
    && |s.messages| == 2 && s.messages[1].place.Unsent?
    && |s.db.jobs| == 1 && s.db.jobs[0].status.Processing? && s.db.jobs[0].generation == 2
    && s.debts == [Debt(0, RetryScheduled(1), 1, Some(1), Due, Needless)]
    && s.db.events == [JobEvent(0, Created), JobEvent(0, Claimed(1, 0)), JobEvent(0, Claimed(2, 1))]
  }

  lemma SchedulesRetry(cfg: Config, s: State, r: Request)
    requires FirstClaim(s, r) && cfg.maxAttempts > 1
    ensures RetryOwed(Apply(cfg, Apply(cfg, s, ARaise(0, Transient)), Turn(0, 0)))
  {
    hide ProgressStep, OutputStep, CheckStep, ClaimStep, SubmitStep;
    var raised := Goto(s, 0, AtRetry);
    assert Apply(cfg, s, ARaise(0, Transient)) == raised;
    assert Apply(cfg, raised, Turn(0, 0)) == RetryStep(cfg, raised, 0);
  }

  lemma ClaimsRetrying(cfg: Config, s: State)
    requires RetryOwed(s)
    ensures ClaimedFirst(Apply(cfg, Apply(cfg, s, ADeliver(0)), Turn(1, 0)))
  {
    hide ProgressStep, OutputStep, CheckStep, VerdictStep, SubmitStep;
    var delivered := Deliver(s, 0);
    assert Apply(cfg, s, ADeliver(0)) == delivered && delivered.workers[1] == Worker(0, 0, AtClaim, 0, 0, false);
    assert Apply(cfg, delivered, Turn(1, 0)) == ClaimStep(delivered, 1);
  }

  lemma PaysLate(cfg: Config, s: State)
    requires ClaimedFirst(s)
    ensures var s' := Apply(cfg, s, APay(0));
            && |s'.db.jobs| == 1 && s'.db.jobs[0].status.Processing? && s'.messages[1].place.Owed?
            && s'.db.events == [JobEvent(0, Created), JobEvent(0, Claimed(1, 0)), JobEvent(0, Claimed(2, 1)), JobEvent(0, RetryScheduled(1))]
  {
  }

  /** The last status event of a job decides. */
  lemma LastWord(events: seq<JobEvent>, kind: EventKind)
    ensures EventLog.Replay(events + [JobEvent(0, kind)], 0) == EventLog.Advance(EventLog.Replay(events, 0), kind)
  {
    assert (events + [JobEvent(0, kind)])[..|events|] == events;
  }

  lemma RetryingLast()
    ensures EventLog.Replay([JobEvent(0, Created), JobEvent(0, Claimed(1, 0)), JobEvent(0, Claimed(2, 1)), JobEvent(0, RetryScheduled(1))], 0)
            == EventLog.Digest.Digest(Retrying, 2, Some(1), false)
  {
    var e1 := [JobEvent(0, Created)];
    var e2 := e1 + [JobEvent(0, Claimed(1, 0))];
    var e3 := e2 + [JobEvent(0, Claimed(2, 1))];
    assert e1[..0] == [] && EventLog.Replay([], 0).Unknown?;
    LastWord(e1, Claimed(1, 0));
    LastWord(e2, Claimed(2, 1));
    LastWord(e3, RetryScheduled(1));
    assert e3 + [JobEvent(0, RetryScheduled(1))]
           == [JobEvent(0, Created), JobEvent(0, Claimed(1, 0)), JobEvent(0, Claimed(2, 1)), JobEvent(0, RetryScheduled(1))];
  }

  function OvertakenRun(r: Request): seq<Action> {
    UntilClaim(r, 0) + [ARaise(0, Transient)] + [Turn(0, 0)] + [ADeliver(0)] + [Turn(1, 0)] + [APay(0)]
  }

  /**
   * A worker schedules a retry; before it writes the event a redelivered message claims the job. So
   * the log ends with RETRYING while the job is PROCESSING, and nobody has failed.
   */
  lemma OvertakenEventIsReachable(cfg: Config, r: Request)
    requires Admissible(cfg, r) && cfg.maxAttempts > 1
    ensures var db := Exec(cfg, START, OvertakenRun(r)).db;
            && |db.jobs| == 1 && db.jobs[0].status.Processing?
            && EventLog.Replay(db.events, 0) == EventLog.Digest.Digest(Retrying, 2, Some(1), false)
  {
    hide Apply;
    ReachesClaim(cfg, r, 0);
    var run := UntilClaim(r, 0);
    SchedulesRetry(cfg, Exec(cfg, START, run), r);
    Then(cfg, START, run, ARaise(0, Transient));
    Then(cfg, START, run + [ARaise(0, Transient)], Turn(0, 0));
    run := run + [ARaise(0, Transient)] + [Turn(0, 0)];
    ClaimsRetrying(cfg, Exec(cfg, START, run));
    Then(cfg, START, run, ADeliver(0));
    Then(cfg, START, run + [ADeliver(0)], Turn(1, 0));
    run := run + [ADeliver(0)] + [Turn(1, 0)];
    PaysLate(cfg, Exec(cfg, START, run));
    Then(cfg, START, run, APay(0));
    RetryingLast();
  }

  /** A request cancels the waiting job and dies before it writes anything else. */
  function LostKeyRun(r: Request): seq<Action> {
    UntilDispatch(r) + [ACancelRead(0)] + [ACancelAct(0)] + [ADefault(0)]
  }

  lemma LosesKey(cfg: Config, r: Request)
    ensures var s := Inserted(r, Dispatching(0, 0), Owed);
            var seen := Apply(cfg, s, ACancelRead(0));
            var acted := Apply(cfg, seen, ACancelAct(0));
            var died := Apply(cfg, acted, ADefault(0));
            && |died.db.jobs| == 1 && died.db.jobs[0].status.Cancelled? && died.db.announced == []
            && died.db.events == [JobEvent(0, Created)]
            && died.debts == [Debt(0, CancelledOff, 0, None, Forgone, Forgone)]
  {
    hide WorkerStep, SubmitStep, WorkerRaise;
    var s := Inserted(r, Dispatching(0, 0), Owed);
    assert s.db.jobs[0].status.Pending? && s.db.jobs[0].generation == 0;
    var seen := s.(cancels := [Immediate(0)]);
    assert Apply(cfg, s, ACancelRead(0)) == seen;
    assert Apply(cfg, seen, ACancelAct(0)) == CancelAct(seen, 0);
  }

  lemma NoReaperInSubmission(r: Request)
    ensures forall a :: a in UntilDispatch(r) ==> !a.AReapAct?
  {
  }

  /** So a job is cancelled without its outbox row and without its event, and no reaper was involved. */
  lemma LostKeyIsReachable(cfg: Config, r: Request)
    requires Admissible(cfg, r)
    ensures var s := Exec(cfg, START, LostKeyRun(r));
            && |s.db.jobs| == 1 && s.db.jobs[0].status.Cancelled? && s.db.announced == []
            && Announcements.KeyOwed(s.debts, 0)
            && !SaysCancelled(s.db.events, 0)
    ensures forall a :: a in LostKeyRun(r) ==> !a.AReapAct?
  {
    hide Apply, Exec, UntilDispatch;
    NoReaperInSubmission(r);
    ReachesDispatch(cfg, r);
    LosesKey(cfg, r);
    var run := UntilDispatch(r);
    Then(cfg, START, run, ACancelRead(0));
    Then(cfg, START, run + [ACancelRead(0)], ACancelAct(0));
    Then(cfg, START, run + [ACancelRead(0)] + [ACancelAct(0)], ADefault(0));
    assert Announcements.OwesKey(Exec(cfg, START, LostKeyRun(r)).debts[0], 0);
  }

  // ---- The progress cache -------------------------------------------------------------------------------

  /** Worker 1 has taken over the job of worker 0, which does not know yet. */
  predicate TwoWorkers(s: State, pc: Pc) {
    && |s.workers| == 2 && s.workers[0] == Worker(0, 0, AtScan, 1, 1, false) && Holding(s, 1, 0, pc)
    && s.workers[1].generation == 2
  }

  lemma TakesOver(cfg: Config, s: State, r: Request)
    requires FirstClaim(s, r)
    ensures var waited := Apply(cfg, s, ATick(STALE_PROCESSING_AFTER + 1));
            var delivered := Apply(cfg, waited, ADeliver(0));
            TwoWorkers(Apply(cfg, delivered, Turn(1, 0)), AtScan)
  {
    hide ProgressStep, OutputStep, CheckStep, VerdictStep, SubmitStep, Stale;
    var waited := Tick(s, STALE_PROCESSING_AFTER + 1);
    assert Apply(cfg, s, ATick(STALE_PROCESSING_AFTER + 1)) == waited;
    var delivered := Deliver(waited, 0);
    assert Apply(cfg, waited, ADeliver(0)) == delivered && delivered.workers[1] == Worker(0, 0, AtClaim, 0, 0, false);
    assert Apply(cfg, delivered, Turn(1, 0)) == ClaimStep(delivered, 1);
  }

  lemma ReportsBoth(cfg: Config, s: State)
    requires TwoWorkers(s, AtConvert)
    ensures var reported := Apply(cfg, s, AWorker(1, Oracle(Some(50), 0)));
            var s' := Apply(cfg, reported, Turn(0, 0));
            && Holding(s', 1, 0, AtConvert) && s'.db.jobs[0].percent == 50 && 0 in s'.cache && s'.cache[0] == 5
  {
    hide OutputStep, CheckStep, VerdictStep, ClaimStep;
    var reported := Report(s, 1, 50, AtConvert);
    assert Apply(cfg, s, AWorker(1, Oracle(Some(50), 0))) == reported;
    assert Apply(cfg, reported, Turn(0, 0)) == Report(reported, 0, 5, AtCheckScan);
  }

  function OverwrittenRun(r: Request): seq<Action> {
    UntilClaim(r, 0) + [ATick(STALE_PROCESSING_AFTER + 1)] + [ADeliver(0)] + [Turn(1, 0)] + Turns(1, 0, 5)
    + [AWorker(1, Oracle(Some(50), 0))] + [Turn(0, 0)]
  }

  /** A superseded worker's report replaces the percentage of its successor in the cache, not in the row. */
  lemma OverwrittenProgressIsReachable(cfg: Config, r: Request)
    requires Admissible(cfg, r)
    ensures var s := Exec(cfg, START, OverwrittenRun(r));
            && Holding(s, 1, 0, AtConvert) && s.db.jobs[0].percent == 50 && 0 in s.cache && s.cache[0] == 5
  {
    hide Apply, Turns, Exec, UntilClaim;
    ReachesClaim(cfg, r, 0);
    var run := UntilClaim(r, 0);
    TakesOver(cfg, Exec(cfg, START, run), r);
    Then(cfg, START, run, ATick(STALE_PROCESSING_AFTER + 1));
    Then(cfg, START, run + [ATick(STALE_PROCESSING_AFTER + 1)], ADeliver(0));
    Then(cfg, START, run + [ATick(STALE_PROCESSING_AFTER + 1)] + [ADeliver(0)], Turn(1, 0));
    run := run + [ATick(STALE_PROCESSING_AFTER + 1)] + [ADeliver(0)] + [Turn(1, 0)];
    ReachesStage(cfg, Exec(cfg, START, run), 1, 0, 0, 5);
    ExecSplit(cfg, START, run, Turns(1, 0, 5));
    run := run + Turns(1, 0, 5);
    ReportsBoth(cfg, Exec(cfg, START, run));
    Then(cfg, START, run, AWorker(1, Oracle(Some(50), 0)));
    Then(cfg, START, run + [AWorker(1, Oracle(Some(50), 0))], Turn(0, 0));
  }
}
