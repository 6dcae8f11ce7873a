/**
 * Deliveries over whole runs: nobody finishes a job without having promoted an output during the
 * same claim, and what a cancel request after the promotion can still stop.
 */
module Deliveries {
  import opened Common
  import opened Jobs
  import opened Database
  import opened DatabaseInvariant
  import opened Protocol
  import opened ProtocolInvariant
  import opened WorkerSafety
  import opened Runs
  import opened RowHistory
  import opened JobGuarantees
  import opened Announcements
  import opened WorkerGuarantees
  import opened OneOwnerRefinement
  import opened Witness
  import O = OneOwner

  // ---- Promotions and claims in a run -----------------------------------------------------------------

  /** A promotion of `b` stays the last word on job `j` unless the next action claims the job. */
  lemma PromotionStays(cfg: Config, run: seq<Action>, p: nat, j: nat, w: nat, b: nat)
    requires run != [] && PromotedIn(cfg, run[..|run| - 1], p, j, w, b)
    requires !O.Claims(LabelOf(cfg, Exec(cfg, START, run[..|run| - 1]), run[|run| - 1]), j)
    ensures PromotedIn(cfg, run, p, j, w, b)
  {
    hide Exec, LabelOf, O.Claims;
    var n := |run| - 1;
    forall q: nat | q <= n ensures run[..n][..q] == run[..q] {
      PrefixOfPrefix(run, n, q);
    }
    forall q | p < q < |run| ensures !O.Claims(LabelOf(cfg, Exec(cfg, START, run[..q]), run[q]), j) {
      if q < n {
        assert run[..n][q] == run[q];
      }
    }
  }

  /** A claim raises the generation, so nobody who held the job before holds it now. */
  lemma ClaimRaises(cfg: Config, s: State, a: Action, j: nat)
    requires Inv(cfg, s) && O.Claims(LabelOf(cfg, s, a), j)
    ensures j < |s.db.jobs| && j < |Apply(cfg, s, a).db.jobs|
    ensures Apply(cfg, s, a).db.jobs[j].generation == s.db.jobs[j].generation + 1
    ensures Apply(cfg, s, a).db.jobs[j].status.Processing?
  {
    hide Apply, LabelOf, Inv;
    ApplySimulates(cfg, s, a);
    var l, db' := LabelOf(cfg, s, a), Apply(cfg, s, a).db;
    assert Alpha(db') == O.Effect(cfg.maxAttempts, Alpha(s.db), l);
    assert |Alpha(db')| == |Alpha(s.db)| && Alpha(db')[j].claims == Alpha(s.db)[j].claims + 1 && Alpha(db')[j].phase.Owned?;
  }

  /** A job newly delivered was concluded by a worker that had promoted, under its claim. */
  lemma NewlyBilled(cfg: Config, s: State, a: Action, j: nat)
    requires Inv(cfg, s) && j < |Apply(cfg, s, a).db.jobs| && Apply(cfg, s, a).db.jobs[j].status.Billed()
    requires j < |s.db.jobs| ==> !s.db.jobs[j].status.Billed()
    ensures LabelOf(cfg, s, a).Finish? || LabelOf(cfg, s, a).FinishAndWithdraw?
    ensures LabelOf(cfg, s, a).j == j && j < |s.db.jobs|
  {
    hide Apply, LabelOf, Inv;
    ApplySimulates(cfg, s, a);
    var l, db' := LabelOf(cfg, s, a), Apply(cfg, s, a).db;
    assert j < |Alpha(db')| && (Alpha(db')[j].phase.Delivered? || Alpha(db')[j].phase.Withdrawn?);
    assert j < |s.db.jobs| ==> !Alpha(s.db)[j].phase.Delivered? && !Alpha(s.db)[j].phase.Withdrawn?;
    BilledByOwner(cfg, Alpha(s.db), l, j);
  }

  lemma BilledByOwner(cfg: Config, tasks: seq<O.Task>, l: O.Label, j: nat)
    requires O.Enabled(cfg.maxAttempts, tasks, l)
    requires var tasks' := O.Effect(cfg.maxAttempts, tasks, l);
             j < |tasks'| && (tasks'[j].phase.Delivered? || tasks'[j].phase.Withdrawn?)
    requires j < |tasks| ==> !tasks[j].phase.Delivered? && !tasks[j].phase.Withdrawn?
    ensures (l.Finish? || l.FinishAndWithdraw?) && l.j == j && j < |tasks|
  {
  }

  /** The owner's last step is the step of a worker at its DONE transition, whose claim is current. */
  lemma FinishIsConclusion(cfg: Config, s: State, a: Action)
    requires LabelOf(cfg, s, a).Finish? || LabelOf(cfg, s, a).FinishAndWithdraw?
    ensures a.AWorker? && a.w < |s.workers| && s.workers[a.w].pc.AtDone?
    ensures LabelOf(cfg, s, a).j == s.workers[a.w].job && LabelOf(cfg, s, a).w == a.w
    ensures Fence(s.db, s.workers[a.w].job, s.workers[a.w].generation)
  {
    hide SubmitStep, ExpiryAct, DeleteBlob;
  }

  /** A worker reaches its DONE transition only by promoting. */
  lemma NewlyAtDone(cfg: Config, s: State, a: Action, w: nat)
    requires w < |Apply(cfg, s, a).workers| && Apply(cfg, s, a).workers[w].pc.AtDone?
    ensures w < |s.workers|
    ensures Apply(cfg, s, a).workers[w] == s.workers[w]
            || (&& LabelOf(cfg, s, a) == O.Promote(s.workers[w].job, w, Apply(cfg, s, a).workers[w].pc.blob)
                && s.workers[w].pc.AtPromote?
                && Apply(cfg, s, a).workers[w] == s.workers[w].(pc := Apply(cfg, s, a).workers[w].pc))
  {
    hide WorkerStep, SubmitStep, WorkerRaise, LabelOf;
    if a.AWorker? && a.w == w && w < |s.workers| {
      hide Apply;
      WorkerApplies(cfg, s, w, a.oracle);
      StepToDone(cfg, s, w, a.oracle);
    } else if a.ARaise? && a.w == w && w < |s.workers| {
      RaisingPromotesNothing(s, w, a.kind);
    } else if w < |s.workers| && !ActsAs(a, w) {
      OthersLeaveAlone(cfg, s, w, a);
    } else {
      NewWorkers(cfg, s, a, w);
    }
  }

  lemma RaisingPromotesNothing(s: State, w: nat, kind: ErrorKind)
    requires w < |s.workers|
    ensures !WorkerRaise(s, w, kind).workers[w].pc.AtDone?
  {
  }

  lemma NewWorkers(cfg: Config, s: State, a: Action, w: nat)
    requires w >= |s.workers| || a == ACrash(w)
    ensures w < |Apply(cfg, s, a).workers| ==> !Apply(cfg, s, a).workers[w].pc.AtDone?
  {
    hide WorkerStep, SubmitStep;
    if a.AWorker? && a.w < |s.workers| {
      StepFrame(cfg, s, a.w, a.oracle);
    } else if a.ASubmitStep? && a.i < |s.submits| {
      SubmitWorkers(cfg, s, a.i, a.reuse, a.ttl, a.limited);
    }
  }

  lemma StepToDone(cfg: Config, s: State, w: nat, o: Oracle)
    requires w < |s.workers| && WorkerStep(cfg, s, w, o).workers[w].pc.AtDone?
    ensures s.workers[w].pc.AtPromote?
    ensures var wk' := WorkerStep(cfg, s, w, o).workers[w];
            && LabelOf(cfg, s, AWorker(w, o)) == O.Promote(s.workers[w].job, w, wk'.pc.blob)
            && wk' == s.workers[w].(pc := wk'.pc)
  {
    hide ProgressStep, CheckStep, VerdictStep, OutputStep, ClaimStep;
    var pc := s.workers[w].pc;
    OutputPcs(s, w);
    ClaimPcs(s, w);
    if pc.AtDone? || pc.AtCancelled? || pc.AtUnsupported? || pc.AtFail? || pc.AtDeadLetter? || pc.AtRetry? {
      VerdictPcs(cfg, s, w, o.ttl);
    } else {
      QuietPcs(s, w, o);
    }
  }

  lemma OutputPcs(s: State, w: nat)
    requires w < |s.workers|
    ensures var wk, wk' := s.workers[w], OutputStep(s, w).workers[w];
            wk'.pc.AtDone? && !wk.pc.AtDone? ==>
              && wk.pc.AtPromote? && wk' == wk.(pc := AtDone(wk.pc.blob))
              && PromoteOutput(s.db, wk.job, wk.generation, wk.pc.blob).1 && wk.pc.blob in s.db.blobs
  {
    hide PromoteOutput, DeleteBlob, PersistBlob;
  }

  lemma ClaimPcs(s: State, w: nat)
    requires w < |s.workers|
    ensures !ClaimStep(s, w).workers[w].pc.AtDone?
  {
    hide ClaimJob;
  }

  lemma QuietPcs(s: State, w: nat, o: Oracle)
    requires w < |s.workers|
    ensures ProgressStep(s, w, o).workers[w].pc.AtDone? ==> s.workers[w].pc.AtDone?
    ensures CheckStep(s, w).workers[w].pc.AtDone? ==> s.workers[w].pc.AtDone?
  {
    hide Progress, Heartbeat;
  }

  lemma VerdictPcs(cfg: Config, s: State, w: nat, ttl: nat)
    requires w < |s.workers|
    requires var pc := s.workers[w].pc;
             pc.AtDone? || pc.AtCancelled? || pc.AtUnsupported? || pc.AtFail? || pc.AtDeadLetter? || pc.AtRetry?
    ensures !VerdictStep(cfg, s, w, ttl).workers[w].pc.AtDone?
  {
    hide TerminalTransition, RetryTransition;
  }

  // ---- Every delivery was promoted --------------------------------------------------------------------

  /** Some action of the run was worker `w`'s promotion of `b`, and nobody claimed the job after it. */
  ghost predicate Backed(cfg: Config, run: seq<Action>, j: nat, w: nat, b: nat) {
    exists p: nat :: PromotedIn(cfg, run, p, j, w, b)
  }

  /** A worker at its DONE transition has promoted, unless it lost the job. */
  ghost predicate WorkerBacked(cfg: Config, run: seq<Action>, db: Db, w: nat, wk: Worker) {
    wk.pc.AtDone? && wk.job < |db.jobs| && db.jobs[wk.job].generation == wk.generation ==>
      Backed(cfg, run, wk.job, w, wk.pc.blob)
  }

  ghost predicate BackedBy(cfg: Config, run: seq<Action>, j: nat, row: Job, b: nat) {
    && row.worker.Some? && Backed(cfg, run, j, row.worker.value, b)
    && (row.output.Some? ==> row.output.value == b)
  }

  /** A delivered job was promoted by its holder, whatever became of its output since. */
  ghost predicate JobBacked(cfg: Config, run: seq<Action>, j: nat, row: Job) {
    row.status.Billed() ==> exists b: nat :: BackedBy(cfg, run, j, row, b)
  }

  ghost predicate AllBacked(cfg: Config, run: seq<Action>) {
    var s := Exec(cfg, START, run);
    && (forall w :: 0 <= w < |s.workers| ==> WorkerBacked(cfg, run, s.db, w, s.workers[w]))
    && (forall j :: 0 <= j < |s.db.jobs| ==> JobBacked(cfg, run, j, s.db.jobs[j]))
  }

  lemma BackingStays(cfg: Config, run: seq<Action>, j: nat, w: nat, b: nat)
    requires run != [] && Backed(cfg, run[..|run| - 1], j, w, b)
    requires !O.Claims(LabelOf(cfg, Exec(cfg, START, run[..|run| - 1]), run[|run| - 1]), j)
    ensures Backed(cfg, run, j, w, b)
  {
    hide Exec, LabelOf, O.Claims, PromotedIn;
    var p: nat :| PromotedIn(cfg, run[..|run| - 1], p, j, w, b);
    PromotionStays(cfg, run, p, j, w, b);
  }

  lemma PromotesNow(cfg: Config, run: seq<Action>, j: nat, w: nat, b: nat)
    requires run != [] && LabelOf(cfg, Exec(cfg, START, run[..|run| - 1]), run[|run| - 1]) == O.Promote(j, w, b)
    ensures Backed(cfg, run, j, w, b)
  {
    hide Exec, LabelOf;
    assert PromotedIn(cfg, run, |run| - 1, j, w, b);
  }

  lemma WorkerStaysBacked(cfg: Config, run: seq<Action>, w: nat)
    requires run != [] && AllBacked(cfg, run[..|run| - 1])
    requires w < |Exec(cfg, START, run).workers|
    ensures WorkerBacked(cfg, run, Exec(cfg, START, run).db, w, Exec(cfg, START, run).workers[w])
  {
    hide Apply, Exec, LabelOf, Backed, Consistent, TicketsOk, EnvelopesOk, SweepsOk, LapsedOk, SubmitsOk, QuotaOk, Moved;
    var before, a := run[..|run| - 1], run[|run| - 1];
    var s, s' := Exec(cfg, START, before), Exec(cfg, START, run);
    ExecLast(cfg, run);
    Reachable(cfg, before);
    var wk' := s'.workers[w];
    var j := wk'.job;
    if wk'.pc.AtDone? && j < |s'.db.jobs| && s'.db.jobs[j].generation == wk'.generation {
      NewlyAtDone(cfg, s, a, w);
      if s.workers[w] == wk' {
        assert WorkerOk(s.db, w, wk') && WorkerBacked(cfg, before, s.db, w, wk');
        StillCurrent(cfg, s, a, j);
        BackingStays(cfg, run, j, w, wk'.pc.blob);
      } else {
        PromotesNow(cfg, run, j, w, wk'.pc.blob);
      }
    }
  }

  /** An action that claims the job makes its generation larger, and none makes it smaller. */
  lemma StillCurrent(cfg: Config, s: State, a: Action, j: nat)
    requires Inv(cfg, s) && j < |s.db.jobs|
    ensures j < |Apply(cfg, s, a).db.jobs|
    ensures s.db.jobs[j].generation <= Apply(cfg, s, a).db.jobs[j].generation
    ensures O.Claims(LabelOf(cfg, s, a), j) ==> s.db.jobs[j].generation < Apply(cfg, s, a).db.jobs[j].generation
  {
    hide Apply, LabelOf, Inv;
    ApplyMoves(cfg, s, a);
    assert RowMoved(cfg, s.db, Apply(cfg, s, a).db, j);
    if O.Claims(LabelOf(cfg, s, a), j) {
      ClaimRaises(cfg, s, a, j);
    }
  }

  lemma JobStaysBacked(cfg: Config, run: seq<Action>, j: nat)
    requires run != [] && AllBacked(cfg, run[..|run| - 1])
    requires j < |Exec(cfg, START, run).db.jobs|
    ensures JobBacked(cfg, run, j, Exec(cfg, START, run).db.jobs[j])
  {
    hide Apply, Exec, LabelOf, Backed, WorkerOk, Consistent, TicketsOk, EnvelopesOk, SweepsOk, LapsedOk, SubmitsOk, QuotaOk, Moved;
    var before, a := run[..|run| - 1], run[|run| - 1];
    var s, s' := Exec(cfg, START, before), Exec(cfg, START, run);
    ExecLast(cfg, run);
    Reachable(cfg, before);
    if s'.db.jobs[j].status.Billed() {
      if j < |s.db.jobs| && s.db.jobs[j].status.Billed() {
        assert JobBacked(cfg, before, j, s.db.jobs[j]);
        var b: nat :| BackedBy(cfg, before, j, s.db.jobs[j], b);
        RowOfDelivered(cfg, s, a, j);
        BackingStays(cfg, run, j, s.db.jobs[j].worker.value, b);
        assert BackedBy(cfg, run, j, s'.db.jobs[j], b);
      } else {
        NewlyBilled(cfg, s, a, j);
        FinishIsConclusion(cfg, s, a);
        var wk := s.workers[a.w];
        assert WorkerBacked(cfg, before, s.db, a.w, wk);
        RowOfConcluded(cfg, s, a);
        BackingStays(cfg, run, j, a.w, wk.pc.blob);
        assert BackedBy(cfg, run, j, s'.db.jobs[j], wk.pc.blob);
      }
    }
  }

  lemma RowOfDelivered(cfg: Config, s: State, a: Action, j: nat)
    requires Inv(cfg, s) && j < |s.db.jobs| && s.db.jobs[j].status.Billed()
    ensures !O.Claims(LabelOf(cfg, s, a), j)
    ensures var db' := Apply(cfg, s, a).db;
            && j < |db'.jobs| && db'.jobs[j].worker == s.db.jobs[j].worker
            && (db'.jobs[j].output == s.db.jobs[j].output || db'.jobs[j].output.None?)
  {
    hide Apply, LabelOf, Inv;
    ApplyMoves(cfg, s, a);
    assert RowMoved(cfg, s.db, Apply(cfg, s, a).db, j);
    StillCurrent(cfg, s, a, j);
  }

  lemma RowOfConcluded(cfg: Config, s: State, a: Action)
    requires Inv(cfg, s) && a.AWorker? && a.w < |s.workers| && s.workers[a.w].pc.AtDone?
    requires Fence(s.db, s.workers[a.w].job, s.workers[a.w].generation)
    requires s.workers[a.w].job < |Apply(cfg, s, a).db.jobs| && Apply(cfg, s, a).db.jobs[s.workers[a.w].job].status.Billed()
    ensures var row' := Apply(cfg, s, a).db.jobs[s.workers[a.w].job];
            row'.worker == Some(a.w) && (row'.output.Some? ==> row'.output.value == s.workers[a.w].pc.blob)
  {
    hide Apply, Consistent, TicketsOk, EnvelopesOk, SweepsOk, LapsedOk, SubmitsOk, QuotaOk;
    assert WorkerOk(s.db, a.w, s.workers[a.w]);
    ApplyMoves(cfg, s, a);
    assert RowMoved(cfg, s.db, Apply(cfg, s, a).db, s.workers[a.w].job);
  }

  lemma {:induction false} DeliveriesAreBacked(cfg: Config, run: seq<Action>)
    ensures AllBacked(cfg, run)
    decreases |run|
  {
    hide Apply, Exec, WorkerBacked, JobBacked;
    if run == [] {
      ExecNone(cfg);
    } else {
      DeliveriesAreBacked(cfg, run[..|run| - 1]);
      var s' := Exec(cfg, START, run);
      forall w | 0 <= w < |s'.workers| ensures WorkerBacked(cfg, run, s'.db, w, s'.workers[w]) {
        WorkerStaysBacked(cfg, run, w);
      }
      forall j | 0 <= j < |s'.db.jobs| ensures JobBacked(cfg, run, j, s'.db.jobs[j]) {
        JobStaysBacked(cfg, run, j);
      }
    }
  }

  /**
   * A DONE or EXPIRED job was promoted by an action of the worker that holds it, and no later
   * action of the run claimed it. If it still points at an output, that is the one promoted.
   */
  lemma DeliveryWasPromoted(cfg: Config, run: seq<Action>, j: nat)
    requires j < |Exec(cfg, START, run).db.jobs| && Exec(cfg, START, run).db.jobs[j].status.Billed()
    ensures var row := Exec(cfg, START, run).db.jobs[j];
            && row.worker.Some?
            && exists p: nat, b: nat :: PromotedIn(cfg, run, p, j, row.worker.value, b) && (row.output.Some? ==> row.output.value == b)
  {
    hide Exec, Apply, PromotedIn;
    DeliveriesAreBacked(cfg, run);
    var row := Exec(cfg, START, run).db.jobs[j];
    assert JobBacked(cfg, run, j, row);
    var b: nat :| BackedBy(cfg, run, j, row, b);
    var p: nat :| PromotedIn(cfg, run, p, j, row.worker.value, b);
  }

  /** In the one-owner machine: an owner finishes only what it promoted since it took the job. */
  lemma OwnersFinishWhatTheyPromoted(cfg: Config, run: seq<Action>, q: nat)
    requires q < |run|
    requires var l := LabelOf(cfg, Exec(cfg, START, run[..q]), run[q]); l.Finish? || l.FinishAndWithdraw?
    ensures var l := LabelOf(cfg, Exec(cfg, START, run[..q]), run[q]);
            exists p: nat, b: nat :: PromotedIn(cfg, run[..q], p, l.j, l.w, b)
  {
    hide Exec, Apply, PromotedIn, LabelOf;
    DeliveriesAreBacked(cfg, run[..q]);
    var s := Exec(cfg, START, run[..q]);
    FinishIsConclusion(cfg, s, run[q]);
    var w := run[q].w;
    assert WorkerBacked(cfg, run[..q], s.db, w, s.workers[w]);
    var p: nat :| PromotedIn(cfg, run[..q], p, s.workers[w].job, w, s.workers[w].pc.blob);
  }

  // ---- A cancel request against the delivery ----------------------------------------------------------

  lemma PromotionIsUnflagged(cfg: Config, s: State, a: Action)
    requires LabelOf(cfg, s, a).Promote?
    ensures var j := LabelOf(cfg, s, a).j; j < |s.db.jobs| && !s.db.jobs[j].cancelRequested
  {
    hide SubmitStep, ExpiryAct, DeleteBlob;
  }

  lemma FlagStays(cfg: Config, run: seq<Action>, more: seq<Action>, p: nat, j: nat)
    requires |run| <= p <= |run + more|
    requires j < |Exec(cfg, START, run).db.jobs| && Exec(cfg, START, run).db.jobs[j].cancelRequested
    ensures var db := Exec(cfg, START, (run + more)[..p]).db; j < |db.jobs| && db.jobs[j].cancelRequested
  {
    hide Exec, Apply;
    assert (run + more)[..p] == run + more[..p - |run|];
    Irrevocable(cfg, run, more[..p - |run|], j);
  }

  /**
   * The flag beats promotion, not the verdict: a flagged job that is delivered all the same had
   * been promoted, by the worker that held it then, before the flag was set.
   */
  lemma FlaggedDoneWasPromoted(cfg: Config, run: seq<Action>, more: seq<Action>, j: nat)
    requires j < |Exec(cfg, START, run).db.jobs| && Exec(cfg, START, run).db.jobs[j].cancelRequested
    requires j < |Exec(cfg, START, run + more).db.jobs| && Exec(cfg, START, run + more).db.jobs[j].status.Billed()
    ensures var row, row' := Exec(cfg, START, run).db.jobs[j], Exec(cfg, START, run + more).db.jobs[j];
            && row'.worker.Some? && row'.worker == row.worker
            && (row'.output.Some? ==> row'.output == row.output)
            && exists p: nat, b: nat :: p < |run| && PromotedIn(cfg, run + more, p, j, row.worker.value, b)
                                        && (row'.output.Some? ==> row'.output.value == b)
  {
    hide Exec, Apply, LabelOf, Inv;
    DeliveryWasPromoted(cfg, run + more, j);
    Irrevocable(cfg, run, more, j);
    var row, row' := Exec(cfg, START, run).db.jobs[j], Exec(cfg, START, run + more).db.jobs[j];
    SameHolder(cfg, run, more, j);
    var p: nat, b: nat :| PromotedIn(cfg, run + more, p, j, row'.worker.value, b) && (row'.output.Some? ==> row'.output.value == b);
    PromotionIsUnflagged(cfg, Exec(cfg, START, (run + more)[..p]), (run + more)[p]);
    if p >= |run| {
      FlagStays(cfg, run, more, p, j);
      assert false;
    }
  }

  lemma SameHolder(cfg: Config, run: seq<Action>, more: seq<Action>, j: nat)
    requires j < |Exec(cfg, START, run).db.jobs| && Exec(cfg, START, run).db.jobs[j].cancelRequested
    ensures j < |Exec(cfg, START, run + more).db.jobs|
    ensures Exec(cfg, START, run + more).db.jobs[j].worker == Exec(cfg, START, run).db.jobs[j].worker
  {
    hide Exec, Apply, Inv;
    Reachable(cfg, run);
    ExecSplit(cfg, START, run, more);
    RowsLater(cfg, Exec(cfg, START, run), more);
    assert RowLater(Exec(cfg, START, run).db.jobs[j], Exec(cfg, START, run + more).db.jobs[j]);
  }

  /** The holder of the job's claim has promoted, and only its DONE transition is left. */
  ghost predicate HolderPromoted(s: State, j: nat) {
    exists w: nat :: PromotedHolder(s, j, w)
  }

  predicate PromotedHolder(s: State, j: nat, w: nat) {
    w < |s.workers| && s.workers[w].job == j && s.workers[w].pc.AtDone? && Fence(s.db, j, s.workers[w].generation)
  }

  /** The cancel request came in time: the job will not be delivered. */
  ghost predicate Doomed(s: State, j: nat) {
    && j < |s.db.jobs| && s.db.jobs[j].cancelRequested && !s.db.jobs[j].status.Billed()
    && !HolderPromoted(s, j)
  }

  /** Only a promoted holder can deliver. */
  lemma DeliveredByHolder(cfg: Config, s: State, a: Action, j: nat)
    requires Inv(cfg, s) && j < |s.db.jobs| && !s.db.jobs[j].status.Billed()
    requires j < |Apply(cfg, s, a).db.jobs| && Apply(cfg, s, a).db.jobs[j].status.Billed()
    ensures HolderPromoted(s, j)
  {
    hide Apply, LabelOf, Inv, Fence;
    NewlyBilled(cfg, s, a, j);
    FinishIsConclusion(cfg, s, a);
    assert PromotedHolder(s, j, a.w);
  }

  /** Once the flag is set, nobody becomes a promoted holder. */
  lemma HeldBefore(cfg: Config, s: State, a: Action, j: nat, w: nat)
    requires Inv(cfg, s) && j < |s.db.jobs| && s.db.jobs[j].cancelRequested && PromotedHolder(Apply(cfg, s, a), j, w)
    ensures PromotedHolder(s, j, w)
  {
    hide Apply, LabelOf, Inv;
    NewlyAtDone(cfg, s, a, w);
    ApplyMoves(cfg, s, a);
    assert RowMoved(cfg, s.db, Apply(cfg, s, a).db, j);
    if LabelOf(cfg, s, a).Promote? {
      PromotionIsUnflagged(cfg, s, a);
    }
  }

  lemma DoomedStays(cfg: Config, s: State, a: Action, j: nat)
    requires Inv(cfg, s) && Doomed(s, j)
    ensures Doomed(Apply(cfg, s, a), j)
  {
    hide Apply, LabelOf, Inv, PromotedHolder;
    var s' := Apply(cfg, s, a);
    ApplyMoves(cfg, s, a);
    assert RowMoved(cfg, s.db, s'.db, j);
    if s'.db.jobs[j].status.Billed() {
      DeliveredByHolder(cfg, s, a, j);
    }
    forall w: nat | PromotedHolder(s', j, w) ensures PromotedHolder(s, j, w) {
      HeldBefore(cfg, s, a, j, w);
    }
  }

  lemma {:induction false} DoomedForever(cfg: Config, s: State, run: seq<Action>, j: nat)
    requires Inv(cfg, s) && Doomed(s, j)
    ensures Doomed(Exec(cfg, s, run), j)
    decreases |run|
  {
    hide Apply, Inv, Doomed;
    if run != [] {
      DoomedForever(cfg, s, run[..|run| - 1], j);
      RunKeeps(cfg, s, run[..|run| - 1]);
      DoomedStays(cfg, Exec(cfg, s, run[..|run| - 1]), run[|run| - 1], j);
    }
  }

  ghost predicate EndsDelivered(cfg: Config, s: State, more: seq<Action>, j: nat) {
    j < |Exec(cfg, s, more).db.jobs| && Exec(cfg, s, more).db.jobs[j].status.Done?
  }

  /**
   * In every reachable state, a job whose cancellation was requested and that is not finished can
   * still end DONE if and only if the worker that holds it has already promoted its output.
   */
  lemma FlaggedEndsDoneIff(cfg: Config, run: seq<Action>, j: nat)
    requires j < |Exec(cfg, START, run).db.jobs|
    requires var row := Exec(cfg, START, run).db.jobs[j]; row.cancelRequested && !row.status.Terminal()
    ensures var s := Exec(cfg, START, run);
            (exists more: seq<Action> :: EndsDelivered(cfg, s, more, j)) <==> HolderPromoted(s, j)
  {
    hide Exec, Apply, Inv;
    var s := Exec(cfg, START, run);
    Reachable(cfg, run);
    if HolderPromoted(s, j) {
      var w: nat :| PromotedHolder(s, j, w);
      HolderDelivers(cfg, s, j, w);
      assert EndsDelivered(cfg, s, [Turn(w, 1)], j);
    } else {
      forall more: seq<Action> ensures !EndsDelivered(cfg, s, more, j) {
        DoomedForever(cfg, s, more, j);
      }
    }
  }

  lemma HolderDelivers(cfg: Config, s: State, j: nat, w: nat)
    requires Inv(cfg, s) && PromotedHolder(s, j, w)
    ensures EndsDelivered(cfg, s, [Turn(w, 1)], j)
  {
    hide Apply, WorkersOk, TicketsOk, EnvelopesOk, SweepsOk, LapsedOk, SubmitsOk, QuotaOk, Consistent;
    Concludes(cfg, s, w, j, 1, s.workers[w].pc.blob);
    Then(cfg, s, [], Turn(w, 1));
    assert [] + [Turn(w, 1)] == [Turn(w, 1)];
  }
}
