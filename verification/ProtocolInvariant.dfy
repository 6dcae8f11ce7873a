/**
 * The inductive invariant of the interleaved system, and the rely lemmas: what one process knows
 * survives every write another process can make.
 */
module ProtocolInvariant {
  import opened Common
  import opened Jobs
  import opened Database
  import opened DatabaseInvariant
  import opened Protocol

  // ---- Workers ------------------------------------------------------------------------------------

  predicate Running(pc: Pc) {
    !pc.AtClaim? && !pc.AtExit? && !pc.Gone?
  }

  /** The worker's job object is what it claimed, and its token is current for nobody else. */
  predicate GrantOk(db: Db, w: nat, wk: Worker) {
    && wk.job < |db.jobs|
    && wk.generation <= db.jobs[wk.job].generation
    && wk.attempts == wk.generation
    && !wk.flagged
    && (db.jobs[wk.job].generation == wk.generation ==> db.jobs[wk.job].worker == Some(w))
  }

  predicate OwnBlob(db: Db, w: nat, wk: Worker, b: nat) {
    b < |db.made| && db.made[b].maker == Conversion(wk.job, wk.generation, w)
  }

  ghost predicate PcOk(db: Db, w: nat, wk: Worker) {
    match wk.pc
    case AtClaim => wk.generation == 0
    case AtPromote(b) => OwnBlob(db, w, wk, b) && Unlinked(db, b)
    case AtRecheck(b) => OwnBlob(db, w, wk, b) && Unlinked(db, b)
    case AtDiscard(b, _) => OwnBlob(db, w, wk, b) && Unlinked(db, b)
    case AtDone(b) =>
      && OwnBlob(db, w, wk, b)
      && (wk.job < |db.jobs| && db.jobs[wk.job].generation == wk.generation ==>
            db.jobs[wk.job].output == Some(b) || db.jobs[wk.job].output.None?)
    case AtDeadLetter => wk.job < |db.jobs| && db.jobs[wk.job].status.Failed?
    case _ => true
  }

  ghost predicate WorkerOk(db: Db, w: nat, wk: Worker) {
    && (Running(wk.pc) ==> wk.generation > 0)
    && (wk.generation > 0 ==> GrantOk(db, w, wk))
    && PcOk(db, w, wk)
  }

  ghost predicate WorkersOk(s: State) {
    forall w :: 0 <= w < |s.workers| ==> WorkerOk(s.db, w, s.workers[w])
  }

  // ---- Messages -----------------------------------------------------------------------------------

  /** A task message that no worker has tried yet and the broker has not been told to drop. */
  predicate Live(m: Message) {
    !m.tried && !m.place.Acked?
  }

  ghost predicate HasTicket(messages: seq<Message>, j: nat) {
    exists m :: 0 <= m < |messages| && messages[m].job == j && Live(messages[m])
  }

  ghost predicate TicketsOk(jobs: seq<Job>, messages: seq<Message>) {
    && (forall m :: 0 <= m < |messages| ==> messages[m].job < |jobs|)
    && (forall j :: 0 <= j < |jobs| && jobs[j].status.Waiting() ==> HasTicket(messages, j))
  }

  predicate EnvelopeOk(messages: seq<Message>, wk: Worker) {
    && wk.message < |messages| && messages[wk.message].job == wk.job
    && (Running(wk.pc) || wk.pc.AtExit? ==> messages[wk.message].tried)
  }

  ghost predicate EnvelopesOk(s: State) {
    forall w :: 0 <= w < |s.workers| ==> EnvelopeOk(s.messages, s.workers[w])
  }

  // ---- Sweeps ---------------------------------------------------------------------------------------

  /**
   * A stale snapshot is either still of the current claim, or the row was claimed again after it,
   * with a heartbeat the snapshot's threshold does not reach.
   */
  predicate ReapOk(db: Db, lapsed: set<(nat, nat)>, r: ReapItem) {
    && r.job < |db.jobs|
    && r.threshold + STALE_PROCESSING_AFTER <= db.now
    && (r.job, r.attempts) in lapsed
    && var row := db.jobs[r.job];
       && r.attempts <= row.generation
       && (r.attempts < row.generation ==> row.heartbeat.Some? && r.threshold <= row.heartbeat.value)
       && (r.flagged ==> row.cancelRequested && row.generation == r.attempts)
  }

  predicate ExpiryOk(db: Db, e: ExpiryItem) {
    && e.job < |db.jobs|
    && db.jobs[e.job].status.Billed()
    && (db.jobs[e.job].output.None? || db.jobs[e.job].output == e.blob)
    && (e.blob.Some? ==>
          && e.blob.value < |db.made|
          && db.made[e.blob.value].maker.Conversion? && db.made[e.blob.value].maker.job == e.job)
  }

  predicate PurgeOk(db: Db, p: PurgeItem) {
    p.job < |db.jobs| && db.jobs[p.job].status.Terminal() && db.jobs[p.job].input == p.blob
  }

  ghost predicate SweepsOk(s: State) {
    && (forall i :: 0 <= i < |s.reaps| ==> ReapOk(s.db, s.lapsed, s.reaps[i]))
    && (forall i :: 0 <= i < |s.expiries| ==> ExpiryOk(s.db, s.expiries[i]))
    && (forall i :: 0 <= i < |s.purges| ==> PurgeOk(s.db, s.purges[i]))
    && (forall i :: 0 <= i < |s.orphans| ==> s.orphans[i] < |s.db.made|)
  }

  /** Every claim that is stale now is recorded as lapsed. */
  ghost predicate LapsedOk(db: Db, lapsed: set<(nat, nat)>) {
    forall j :: 0 <= j < |db.jobs| ==> LapseSeen(db, lapsed, j)
  }

  predicate LapseSeen(db: Db, lapsed: set<(nat, nat)>, j: nat)
    requires j < |db.jobs|
  {
    Abandoned(db, j, db.now - STALE_PROCESSING_AFTER) ==> (j, db.jobs[j].generation) in lapsed
  }

  // ---- Submissions ------------------------------------------------------------------------------------

  /** No FileBlob row uploaded by submission `i` other than, possibly, `b`. */
  ghost predicate OnlyUpload(db: Db, i: nat, b: nat) {
    forall b' :: b' in db.blobs && b' < |db.made| && db.made[b'].maker == Upload(i) ==> b' == b
  }

  ghost predicate NoUpload(db: Db, i: nat) {
    forall b :: b in db.blobs && b < |db.made| ==> db.made[b].maker != Upload(i)
  }

  /** The submission holds an upload that no job points at. */
  ghost predicate Uploaded(db: Db, i: nat, b: nat) {
    b < |db.made| && db.made[b].maker == Upload(i) && Unlinked(db, b) && OnlyUpload(db, i, b)
  }

  predicate Decisions(db: Db, i: nat, allowed: bool, denied: bool) {
    (i in db.allowed <==> allowed) && (i in db.denied <==> denied)
  }

  predicate QuotaReason(reason: Reason) {
    reason.UploadTooLarge? || reason.TooManyActiveJobs?
  }

  predicate SameJob(db: Db, j: nat, r: Request) {
    j < |db.jobs| && db.jobs[j].request.SameKey(r) && Matches(db.jobs[j].request, r)
  }

  /** The key was used for another conversion. */
  ghost predicate Contradicted(db: Db, r: Request) {
    exists j :: 0 <= j < |db.jobs| && Contradicts(db.jobs[j], r)
  }

  predicate Contradicts(row: Job, r: Request) {
    row.request.SameKey(r) && !Matches(row.request, r)
  }

  predicate SameWork(db: Db, j: nat, r: Request) {
    && j < |db.jobs|
    && db.jobs[j].request.owner == r.owner && db.jobs[j].request.workspace == r.workspace
    && db.jobs[j].request.source == r.source && db.jobs[j].request.target == r.target
    && db.jobs[j].request.checksum == r.checksum && db.jobs[j].request.options == r.options
  }

  /** The submission committed job `j`, and has no other upload. */
  ghost predicate HasMade(db: Db, i: nat, r: Request, j: nat) {
    && Decisions(db, i, true, false)
    && j < |db.jobs| && db.jobs[j].request == r && db.jobs[j].decision == i
    && OnlyUpload(db, i, db.jobs[j].input)
  }

  /** The net effect of a finished submission. */
  ghost predicate OutcomeOk(db: Db, i: nat, r: Request, outcome: Outcome) {
    match outcome
    case MadeJob(j) => HasMade(db, i, r, j)
    case Spoilt(j) => HasMade(db, i, r, j)
    case FoundJob(j) => Decisions(db, i, false, false) && NoUpload(db, i) && SameJob(db, j, r)
    case ReusedJob(j) => Decisions(db, i, false, false) && NoUpload(db, i) && SameWork(db, j, r)
    case Refused(RacedMismatch) => Decisions(db, i, true, false) && Contradicted(db, r) && exists b :: Uploaded(db, i, b)
    case Refused(reason) =>
      && Decisions(db, i, false, QuotaReason(reason)) && NoUpload(db, i)
      && (reason.Mismatch? ==> Contradicted(db, r))
  }

  ghost predicate SubmitOk(db: Db, i: nat, sub: Submit) {
    match sub.pc
    case Looking => Decisions(db, i, false, false) && NoUpload(db, i)
    case Persisting => Decisions(db, i, false, false) && NoUpload(db, i)
    case Admitting(b) => Decisions(db, i, false, false) && Uploaded(db, i, b)
    case Inserting(b) => Decisions(db, i, false, false) && Uploaded(db, i, b)
    case Denying(b, reason) => Decisions(db, i, false, false) && Uploaded(db, i, b) && QuotaReason(reason)
    case Dropping(b, reason) =>
      Decisions(db, i, false, QuotaReason(reason)) && Uploaded(db, i, b) && !reason.RacedMismatch? && !reason.Mismatch?
    case Verifying(b, j) =>
      && Decisions(db, i, true, false) && Uploaded(db, i, b)
      && j < |db.jobs| && db.jobs[j].request.SameKey(sub.request)
    case DroppingRaced(b, j) => Decisions(db, i, true, false) && Uploaded(db, i, b) && SameJob(db, j, sub.request)
    case Undeciding(j) => Decisions(db, i, true, false) && NoUpload(db, i) && SameJob(db, j, sub.request)
    case Dispatching(b, j) => HasMade(db, i, sub.request, j) && db.jobs[j].input == b
    case Spoiling(b, j) => HasMade(db, i, sub.request, j) && db.jobs[j].input == b
    case Ended(outcome) => OutcomeOk(db, i, sub.request, outcome)
    case Crashed(made) => made.Some? ==> HasMade(db, i, sub.request, made.value)
  }

  ghost predicate SubmitsOk(s: State) {
    && (forall i :: 0 <= i < |s.submits| ==> SubmitOk(s.db, i, s.submits[i]))
    && (forall j :: 0 <= j < |s.db.jobs| ==> MadeBySubmit(s, j))
    && (forall i :: i in s.db.allowed || i in s.db.denied ==> i < |s.submits|)
    && (forall b :: 0 <= b < |s.db.made| ==> MakerKnown(s, b))
  }

  /** Each job was inserted by exactly one submission, which knows it. */
  predicate MadeBySubmit(s: State, j: nat)
    requires j < |s.db.jobs|
  {
    && s.db.jobs[j].decision < |s.submits|
    && JobMade(s.submits[s.db.jobs[j].decision].pc) == Some(j)
  }

  predicate MakerKnown(s: State, b: nat)
    requires b < |s.db.made|
  {
    match s.db.made[b].maker
    case Upload(i) => i < |s.submits|
    case Conversion(_, _, _) => true
  }

  // ---- Debts ------------------------------------------------------------------------------------------

  predicate OfRetry(kind: EventKind) {
    kind.RetryScheduled? || kind.RequeuedStale?
  }

  /** Debts are of four kinds; those of a cancellation mean that it has happened. */
  predicate DebtOk(db: Db, d: Debt) {
    && d.job < |db.jobs| && d.generation <= db.jobs[d.job].generation
    && (OfRetry(d.kind) || d.kind.CancelAsked? || d.kind.CancelledOff?)
    && (d.message.Some? <==> OfRetry(d.kind))
    && (d.note.Needless? <==> !d.kind.CancelledOff?) && !d.event.Needless?
    && (!OfRetry(d.kind) ==> db.jobs[d.job].cancelRequested)
    && (d.kind.CancelledOff? ==> db.jobs[d.job].status.Cancelled?)
  }

  ghost predicate DebtsOk(db: Db, debts: seq<Debt>) {
    forall i :: 0 <= i < |debts| ==> DebtOk(db, debts[i])
  }

  /** At most one submission is between count and insert in a workspace, and the count still holds. */
  ghost predicate QuotaOk(cfg: Config, s: State) {
    && (forall workspace: nat :: ActiveJobs(s.db.jobs, workspace) <= cfg.maxActiveJobs(workspace))
    && (forall i :: 0 <= i < |s.submits| && s.submits[i].pc.Inserting? ==> HasRoom(cfg, s.db.jobs, s.submits[i].request.workspace))
    && (forall i, k :: 0 <= i < k < |s.submits| && s.submits[i].pc.Inserting? && s.submits[k].pc.Inserting? ==>
          s.submits[i].request.workspace != s.submits[k].request.workspace)
  }

  predicate HasRoom(cfg: Config, jobs: seq<Job>, workspace: nat) {
    ActiveJobs(jobs, workspace) < cfg.maxActiveJobs(workspace)
  }

  ghost predicate Inv(cfg: Config, s: State) {
    && Consistent(s.db)
    && WorkersOk(s)
    && TicketsOk(s.db.jobs, s.messages)
    && EnvelopesOk(s)
    && SweepsOk(s)
    && LapsedOk(s.db, s.lapsed)
    && SubmitsOk(s)
    && QuotaOk(cfg, s)
    && DebtsOk(s.db, s.debts)
  }

  // ---- Rely lemmas --------------------------------------------------------------------------------------

  /** The linked blob, if any, is not of worker `w`'s making. */
  predicate NotBy(made: seq<Made>, link: Option<nat>, w: nat) {
    link.Some? && link.value < |made| && made[link.value].maker.Conversion? ==> made[link.value].maker.worker != w
  }

  lemma WorkerKeeps(db: Db, db': Db, link: Option<nat>, w: nat, wk: Worker)
    requires WorkerOk(db, w, wk) && Evolves(db, db', link) && NotBy(db'.made, link, w)
    ensures WorkerOk(db', w, wk)
  {
    if wk.generation > 0 {
      assert RowStep(db.now, db.jobs[wk.job], db'.jobs[wk.job]);
      assert PointerStep(db'.made, wk.job, db.jobs[wk.job], db'.jobs[wk.job], link);
    }
    if wk.pc.AtPromote? || wk.pc.AtRecheck? || wk.pc.AtDiscard? {
      UnlinkedStays(db, db', link, wk.pc.blob);
    }
  }

  lemma ReapItemKeeps(db: Db, db': Db, link: Option<nat>, lapsed: set<(nat, nat)>, r: ReapItem)
    requires ReapOk(db, lapsed, r) && Evolves(db, db', link)
    ensures ReapOk(db', lapsed, r)
  {
    assert RowStep(db.now, db.jobs[r.job], db'.jobs[r.job]);
  }

  lemma SweepsKeep(s: State, s': State, link: Option<nat>)
    requires SweepsOk(s) && Evolves(s.db, s'.db, link)
    requires s'.reaps == s.reaps && s'.expiries == s.expiries && s'.purges == s.purges && s'.orphans == s.orphans
    requires s'.lapsed == s.lapsed
    ensures SweepsOk(s')
  {
    forall i | 0 <= i < |s.reaps| ensures ReapOk(s'.db, s.lapsed, s.reaps[i]) {
      ReapItemKeeps(s.db, s'.db, link, s.lapsed, s.reaps[i]);
    }
    forall i | 0 <= i < |s.expiries| ensures ExpiryOk(s'.db, s.expiries[i]) {
      assert RowStep(s.db.now, s.db.jobs[s.expiries[i].job], s'.db.jobs[s.expiries[i].job]);
    }
    forall i | 0 <= i < |s.purges| ensures PurgeOk(s'.db, s.purges[i]) {
      assert RowStep(s.db.now, s.db.jobs[s.purges[i].job], s'.db.jobs[s.purges[i].job]);
    }
  }

  lemma DebtsKeep(db: Db, db': Db, link: Option<nat>, debts: seq<Debt>)
    requires DebtsOk(db, debts) && Evolves(db, db', link)
    ensures DebtsOk(db', debts)
  {
    forall i | 0 <= i < |debts| ensures DebtOk(db', debts[i]) {
      assert DebtOk(db, debts[i]) && RowStep(db.now, db.jobs[debts[i].job], db'.jobs[debts[i].job]);
    }
  }

  lemma LapsedKeeps(db: Db, db': Db, link: Option<nat>, lapsed: set<(nat, nat)>)
    requires LapsedOk(db, lapsed) && Evolves(db, db', link) && Consistent(db')
    requires forall j :: |db.jobs| <= j < |db'.jobs| ==> db'.jobs[j].status.Pending?
    ensures LapsedOk(db', lapsed)
  {
    forall j | 0 <= j < |db'.jobs| && db'.jobs[j].status.Processing? ensures LapseSeen(db', lapsed, j) {
      assert RowOk(db'.now, db'.made, db'.blobs, j, db'.jobs[j]);
      if j < |db.jobs| {
        assert RowStep(db.now, db.jobs[j], db'.jobs[j]);
        assert LapseSeen(db, lapsed, j);
      }
    }
  }

  /** Messages only gain copies; a ticket may go only when its job is no longer waiting. */
  lemma TicketsKeep(jobs: seq<Job>, messages: seq<Message>, jobs': seq<Job>, messages': seq<Message>)
    requires TicketsOk(jobs, messages) && |jobs| <= |jobs'| && |messages| <= |messages'|
    requires forall m :: 0 <= m < |messages| ==> messages'[m].job == messages[m].job
    requires forall m :: 0 <= m < |messages| && Live(messages[m]) ==> Live(messages'[m]) || !jobs'[messages[m].job].status.Waiting()
    requires forall m :: |messages| <= m < |messages'| ==> messages'[m].job < |jobs'|
    requires forall j :: 0 <= j < |jobs'| && jobs'[j].status.Waiting() ==>
                           (j < |jobs| && jobs[j].status.Waiting()) || HasTicket(messages', j)
    ensures TicketsOk(jobs', messages')
  {
    forall j | 0 <= j < |jobs'| && jobs'[j].status.Waiting() ensures HasTicket(messages', j) {
      if j < |jobs| && jobs[j].status.Waiting() {
        var m :| 0 <= m < |messages| && messages[m].job == j && Live(messages[m]);
        assert messages'[m].job == j;
      }
    }
  }

  /** No row becomes waiting. */
  ghost predicate NoNewWaiting(jobs: seq<Job>, jobs': seq<Job>) {
    |jobs| == |jobs'| && forall j :: 0 <= j < |jobs| && jobs'[j].status.Waiting() ==> jobs[j].status.Waiting()
  }

  lemma ContradictedStays(db: Db, db': Db, link: Option<nat>, r: Request)
    requires Evolves(db, db', link)
    ensures Contradicted(db, r) ==> Contradicted(db', r)
  {
    if Contradicted(db, r) {
      var j :| 0 <= j < |db.jobs| && Contradicts(db.jobs[j], r);
      assert RowStep(db.now, db.jobs[j], db'.jobs[j]);
      assert Contradicts(db'.jobs[j], r);
    }
  }

  lemma RequestsStay(db: Db, db': Db, link: Option<nat>)
    requires Evolves(db, db', link)
    ensures |db.jobs| <= |db'.jobs|
    ensures forall j :: 0 <= j < |db.jobs| ==>
              && db'.jobs[j].request == db.jobs[j].request && db'.jobs[j].input == db.jobs[j].input
              && db'.jobs[j].decision == db.jobs[j].decision
  {
    forall j | 0 <= j < |db.jobs|
      ensures db'.jobs[j].request == db.jobs[j].request && db'.jobs[j].input == db.jobs[j].input
      ensures db'.jobs[j].decision == db.jobs[j].decision
    {
      assert RowStep(db.now, db.jobs[j], db'.jobs[j]);
    }
  }

  /** A write that leaves the uploads and decisions of submission `i` alone. */
  ghost predicate Elsewhere(db: Db, db': Db, link: Option<nat>, i: nat) {
    && Evolves(db, db', link)
    && (link.Some? && link.value < |db'.made| ==> db'.made[link.value].maker != Upload(i))
    && (forall b :: b in db'.blobs && b < |db'.made| && db'.made[b].maker == Upload(i) ==> b in db.blobs && b < |db.made|)
    && (i in db.allowed <==> i in db'.allowed) && (i in db.denied <==> i in db'.denied)
  }

  lemma UploadsStay(db: Db, db': Db, link: Option<nat>, i: nat)
    requires Elsewhere(db, db', link, i)
    ensures forall b: nat :: Uploaded(db, i, b) ==> Uploaded(db', i, b)
    ensures NoUpload(db, i) ==> NoUpload(db', i)
    ensures forall b: nat :: OnlyUpload(db, i, b) ==> OnlyUpload(db', i, b)
  {
    forall b: nat | Uploaded(db, i, b) ensures Uploaded(db', i, b) {
      UnlinkedStays(db, db', link, b);
    }
  }

  lemma OutcomeKeeps(db: Db, db': Db, link: Option<nat>, i: nat, r: Request, outcome: Outcome)
    requires OutcomeOk(db, i, r, outcome) && Elsewhere(db, db', link, i)
    ensures OutcomeOk(db', i, r, outcome)
  {
    hide Contradicted, NoUpload, OnlyUpload, Uploaded, Evolves, Matches;
    RequestsStay(db, db', link);
    UploadsStay(db, db', link, i);
    ContradictedStays(db, db', link, r);
  }

  lemma SubmitKeeps(db: Db, db': Db, link: Option<nat>, i: nat, sub: Submit)
    requires SubmitOk(db, i, sub) && Evolves(db, db', link)
    requires link.Some? && link.value < |db'.made| ==> db'.made[link.value].maker != Upload(i)
    requires forall b :: b in db'.blobs && b < |db'.made| && db'.made[b].maker == Upload(i) ==> b in db.blobs && b < |db.made|
    requires (i in db.allowed <==> i in db'.allowed) && (i in db.denied <==> i in db'.denied)
    ensures SubmitOk(db', i, sub)
  {
    hide OutcomeOk, NoUpload, OnlyUpload, Uploaded, Evolves, Matches;
    if sub.pc.Ended? {
      OutcomeKeeps(db, db', link, i, sub.request, sub.pc.outcome);
    } else {
      RequestsStay(db, db', link);
      UploadsStay(db, db', link, i);
    }
  }

  /** Writes of workers and sweeps: no job row is added, no upload either. */
  lemma SubmitsKeep(s: State, s': State, link: Option<nat>)
    requires SubmitsOk(s) && Evolves(s.db, s'.db, link)
    requires s'.submits == s.submits
    requires |s'.db.jobs| == |s.db.jobs|
    requires link.Some? ==> link.value < |s'.db.made| && s'.db.made[link.value].maker.Conversion?
    requires forall b :: b in s'.db.blobs ==> b in s.db.blobs || (b < |s'.db.made| && s'.db.made[b].maker.Conversion?)
    requires forall b :: b in s.db.blobs ==> b < |s.db.made|
    requires forall b :: |s.db.made| <= b < |s'.db.made| ==> MakerKnown(s', b)
    requires s'.db.allowed == s.db.allowed && s'.db.denied == s.db.denied
    ensures SubmitsOk(s')
  {
    forall i | 0 <= i < |s.submits| ensures SubmitOk(s'.db, i, s.submits[i]) {
      SubmitKeeps(s.db, s'.db, link, i, s.submits[i]);
    }
    forall j | 0 <= j < |s.db.jobs| ensures MadeBySubmit(s', j) {
      assert MadeBySubmit(s, j) && RowStep(s.db.now, s.db.jobs[j], s'.db.jobs[j]);
    }
    forall b | 0 <= b < |s.db.made| ensures MakerKnown(s', b) {
      assert MakerKnown(s, b);
    }
  }

  lemma QuotaKeeps(cfg: Config, s: State, s': State, link: Option<nat>)
    requires QuotaOk(cfg, s) && Evolves(s.db, s'.db, link)
    requires |s'.db.jobs| == |s.db.jobs| && |s'.submits| == |s.submits|
    requires forall i :: 0 <= i < |s.submits| ==>
               s'.submits[i].request == s.submits[i].request && (s'.submits[i].pc.Inserting? ==> s.submits[i].pc.Inserting?)
    ensures QuotaOk(cfg, s')
  {
    forall workspace: nat ensures ActiveJobs(s'.db.jobs, workspace) <= ActiveJobs(s.db.jobs, workspace) {
      forall j | 0 <= j < |s.db.jobs|
        ensures s'.db.jobs[j].request == s.db.jobs[j].request && (s'.db.jobs[j].status.Active() ==> s.db.jobs[j].status.Active())
      {
        assert RowStep(s.db.now, s.db.jobs[j], s'.db.jobs[j]);
      }
      ActiveJobsShrink(s.db.jobs, s'.db.jobs, workspace);
    }
  }
}
