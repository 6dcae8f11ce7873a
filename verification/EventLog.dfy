/**
 * What the event log says of a job. Replaying a job's events always gives its generation and its
 * holder. Its status and its cancel flag are told by events that may come late or never: the
 * exact condition under which the log gives them, too, is `LogReplaysIff`.
 */
module EventLog {
  import opened Common
  import opened Jobs
  import opened Database
  import opened DatabaseInvariant
  import opened Protocol
  import opened ProtocolInvariant
  import opened WorkerSafety
  import opened Runs

  // ---- Replay -------------------------------------------------------------------------------------

  /** What a reader of the log knows about a job. */
  datatype Digest =
    | Unknown
    | Digest(status: Status, generation: nat, worker: Option<nat>, cancelRequested: bool)

  function Became(d: Digest, status: Status): Digest {
    if d.Unknown? then d else d.(status := status)
  }

  function Flagged(d: Digest): Digest {
    if d.Unknown? then d else d.(cancelRequested := true)
  }

  function Advance(d: Digest, kind: EventKind): Digest {
    match kind
    case Created => Digest(Pending, 0, None, false)
    case Claimed(g, w) => if d.Unknown? then d else d.(status := Processing, generation := g, worker := Some(w))
    case CancelAsked => Flagged(d)
    case CancelledOff => Flagged(Became(d, Cancelled))
    case RetryScheduled(_) => Became(d, Retrying)
    case RequeuedStale => Became(d, Retrying)
    case Concluded(status) => Became(d, status)
    case DeadLettered => d
    case OutputExpired => Became(d, Expired)
  }

  function Replay(events: seq<JobEvent>, j: nat): Digest {
    if events == [] then Unknown
    else
      var before, e := Replay(events[..|events| - 1], j), events[|events| - 1];
      if e.job == j then Advance(before, e.kind) else before
  }

  function DigestOf(row: Job): Digest {
    Digest(row.status, row.generation, row.worker, row.cancelRequested)
  }

  /** Percentage and times that fit the status; in particular no output expires early. */
  predicate Plausible(now: nat, row: Job) {
    && (row.status.Billed() ==> row.percent == 100)
    && (row.status.Cancelled? ==> row.percent == 0)
    && (row.startedAt.Some? <==> row.generation > 0)
    && (row.startedAt.Some? ==> row.createdAt <= row.startedAt.value <= now)
    && (row.finishedAt.Some? <==> row.status.Terminal())
    && (row.finishedAt.Some? ==> row.createdAt <= row.finishedAt.value <= now)
    && (row.startedAt.Some? && row.finishedAt.Some? ==> row.startedAt.value <= row.finishedAt.value)
    && (row.status.Billed() ==> row.expiresAt.Some? && row.finishedAt.value <= row.expiresAt.value)
    && (row.status.Expired? ==> row.expiresAt.value <= now)
    && row.createdAt <= now
  }

  // ---- What the log says -------------------------------------------------------------------------

  predicate SaysFlagged(events: seq<JobEvent>, j: nat) {
    JobEvent(j, CancelAsked) in events || JobEvent(j, CancelledOff) in events
  }

  /**
   * A late retry event sets the log back to RETRYING. That lasts until the next claim, and until the
   * log tells the end of the job: the event of `d` came after both, for a row that stands like `row`.
   */
  predicate Reopens(row: Job, closed: bool, d: Debt) {
    && OfRetry(d.kind) && d.event.Written? && d.event.at.generation == row.generation
    && (row.status.Terminal() ==>
          if row.status.Cancelled? then closed ==> d.event.at.closed else d.event.at.status == row.status)
  }

  ghost predicate Reopened(row: Job, closed: bool, debts: seq<Debt>, j: nat) {
    exists i :: 0 <= i < |debts| && debts[i].job == j && Reopens(row, closed, debts[i])
  }

  function ToldStatus(row: Job, closed: bool, reopened: bool): Status {
    if reopened then Retrying
    else if row.status.Retrying? || (row.status.Cancelled? && !closed) then
      if row.generation == 0 then Pending else Processing
    else row.status
  }

  ghost predicate LogReopened(db: Db, debts: seq<Debt>, j: nat)
    requires j < |db.jobs|
  {
    Reopened(db.jobs[j], SaysCancelled(db.events, j), debts, j)
  }

  /** The digest that the log gives of job `j`. */
  ghost function Legend(db: Db, debts: seq<Debt>, j: nat): Digest
    requires j < |db.jobs|
  {
    Digest(ToldStatus(db.jobs[j], SaysCancelled(db.events, j), LogReopened(db, debts, j)),
           db.jobs[j].generation, db.jobs[j].worker, SaysFlagged(db.events, j))
  }

  ghost predicate RowTold(db: Db, debts: seq<Debt>, j: nat)
    requires j < |db.jobs|
  {
    var row := db.jobs[j];
    && Replay(db.events, j) == Legend(db, debts, j) && Plausible(db.now, row)
    && (SaysFlagged(db.events, j) ==> row.cancelRequested)
    && (SaysCancelled(db.events, j) ==> row.status.Cancelled?)
    && (row.status.Pending? ==> row.generation == 0)
    && (row.status.Processing? || row.status.Retrying? ==> row.generation > 0)
  }

  // ---- What the debts say --------------------------------------------------------------------------

  /** At moment `m` the row stood where it could come from there. */
  predicate Earlier(row: Job, closed: bool, m: Moment) {
    && m.generation <= row.generation
    && (m.closed ==> closed)
    && (m.generation == row.generation && m.status.Terminal() ==>
          row.status == m.status || (m.status.Done? && row.status.Expired?))
  }

  predicate DebtTold(db: Db, d: Debt) {
    && d.job < |db.jobs|
    && var row, closed := db.jobs[d.job], SaysCancelled(db.events, d.job);
       && (d.event.Written? ==> Earlier(row, closed, d.event.at))
       && (d.kind.CancelledOff? ==> row.status.Cancelled? && (!d.event.Written? ==> !closed))
       && (OfRetry(d.kind) ==> d.generation <= row.generation)
       && (OfRetry(d.kind) && d.generation == row.generation ==> row.status.Retrying? || row.status.Cancelled?)
       && (!OfRetry(d.kind) ==> (d.kind.CancelAsked? || d.kind.CancelledOff?) && row.cancelRequested)
  }

  predicate Unwritten(d: Debt) {
    !d.event.Written?
  }

  predicate Opens(d: Debt, j: nat, row: Job) {
    d.job == j && OfRetry(d.kind) && d.generation == row.generation
  }

  predicate EndsUnsaid(d: Debt, j: nat) {
    d.job == j && d.kind.CancelledOff? && Unwritten(d)
  }

  predicate FlagsUnsaid(d: Debt, j: nat) {
    d.job == j && !OfRetry(d.kind) && Unwritten(d)
  }

  /** Whatever the log does not say of the row, some debt has yet to say. */
  ghost predicate Accounted(db: Db, debts: seq<Debt>, j: nat)
    requires j < |db.jobs|
  {
    var row := db.jobs[j];
    && (row.status.Retrying? ==> exists i :: 0 <= i < |debts| && Opens(debts[i], j, row))
    && (row.status.Cancelled? && !SaysCancelled(db.events, j) ==> exists i :: 0 <= i < |debts| && EndsUnsaid(debts[i], j))
    && (row.cancelRequested && !SaysFlagged(db.events, j) ==> exists i :: 0 <= i < |debts| && FlagsUnsaid(debts[i], j))
  }

  ghost predicate OneEnd(debts: seq<Debt>) {
    forall i, k :: 0 <= i < k < |debts| && debts[i].kind.CancelledOff? && debts[k].kind.CancelledOff? ==>
      debts[i].job != debts[k].job
  }

  ghost predicate Truthful(db: Db, debts: seq<Debt>) {
    && (forall j :: 0 <= j < |db.jobs| ==> RowTold(db, debts, j))
    && (forall j :: 0 <= j < |db.jobs| ==> Accounted(db, debts, j))
    && (forall i :: 0 <= i < |debts| ==> DebtTold(db, debts[i]))
    && OneEnd(debts)
    && (forall e :: e in db.events ==> e.job < |db.jobs|)
  }

  // ---- Writes ---------------------------------------------------------------------------------------

  lemma ReplayLog(db: Db, j: nat, kind: EventKind, k: nat)
    ensures Replay(Log(db, j, kind).events, k)
            == if k == j then Advance(Replay(db.events, k), kind) else Replay(db.events, k)
  {
    assert Log(db, j, kind).events[..|db.events|] == db.events;
  }

  lemma SaysLog(db: Db, j: nat, kind: EventKind, k: nat)
    ensures SaysCancelled(Log(db, j, kind).events, k)
            <==> SaysCancelled(db.events, k) || (k == j && (kind.CancelledOff? || kind == Concluded(Cancelled)))
    ensures SaysFlagged(Log(db, j, kind).events, k)
            <==> SaysFlagged(db.events, k) || (k == j && (kind.CancelledOff? || kind.CancelAsked?))
  {
  }

  lemma {:induction false} NothingSaid(events: seq<JobEvent>, j: nat)
    requires forall e :: e in events ==> e.job != j
    ensures Replay(events, j).Unknown? && !SaysCancelled(events, j) && !SaysFlagged(events, j)
  {
    if events != [] {
      NothingSaid(events[..|events| - 1], j);
    }
  }

  /** The row changes that are committed together with their event. */
  predicate AtOnce(r: Job, r': Job, kind: EventKind) {
    match kind
    case Claimed(g, w) =>
      && g == r.generation + 1
      && r' == r'.(generation := g, worker := Some(w), status := Processing, cancelRequested := r.cancelRequested)
      && !r.status.Cancelled?
    case CancelledOff =>
      && r' == r'.(status := Cancelled, cancelRequested := true, generation := r.generation, worker := r.worker)
      && !r.status.Terminal()
    case Concluded(status) =>
      && r' == r'.(status := status, cancelRequested := r.cancelRequested, generation := r.generation, worker := r.worker)
      && r.status.Processing? && Verdict(status)
    case OutputExpired =>
      && r' == r'.(status := Expired, cancelRequested := r.cancelRequested, generation := r.generation, worker := r.worker)
      && r.status.Done?
    case _ => false
  }

  /** What the log says of the row changes with it. */
  lemma AtOnceTold(db: Db, db': Db, debts: seq<Debt>, j: nat, kind: EventKind)
    requires Truthful(db, debts) && j < |db.jobs| == |db'.jobs| && db'.events == db.events + [JobEvent(j, kind)]
    requires AtOnce(db.jobs[j], db'.jobs[j], kind) && Plausible(db'.now, db'.jobs[j])
    ensures RowTold(db', debts, j) && Accounted(db', debts, j)
  {
    hide Plausible, Advance, Replay, SaysCancelled, SaysFlagged, OneEnd;
    assert RowTold(db, debts, j) && Accounted(db, debts, j);
    ReplayLog(db, j, kind, j);
    SaysLog(db, j, kind, j);
    AdvanceAtOnce(db, db', debts, j, kind);
    forall i | 0 <= i < |debts| && debts[i].job == j ensures !Reopens(db'.jobs[j], SaysCancelled(db'.events, j), debts[i]) {
      assert DebtTold(db, debts[i]);
    }
  }

  lemma AdvanceAtOnce(db: Db, db': Db, debts: seq<Debt>, j: nat, kind: EventKind)
    requires j < |db.jobs| == |db'.jobs| && AtOnce(db.jobs[j], db'.jobs[j], kind)
    ensures var d := Advance(Legend(db, debts, j), kind);
            && d.Digest? && d.status == db'.jobs[j].status && d.generation == db'.jobs[j].generation
                && d.worker == db'.jobs[j].worker
            && d.cancelRequested == (SaysFlagged(db.events, j) || kind.CancelledOff?)
  {
    hide SaysFlagged, SaysCancelled, LogReopened;
  }

  lemma AtOnceDebt(db: Db, db': Db, j: nat, kind: EventKind, d: Debt)
    requires DebtTold(db, d) && j < |db.jobs| == |db'.jobs| && db'.events == db.events + [JobEvent(j, kind)]
    requires AtOnce(db.jobs[j], db'.jobs[j], kind) && d.job == j
    ensures DebtTold(db', d)
  {
    hide SaysCancelled;
    SaysLog(db, j, kind, j);
  }

  /** Job `k` is not concerned. */
  lemma OthersTold(db: Db, db': Db, debts: seq<Debt>, debts': seq<Debt>, k: nat)
    requires k < |db.jobs| <= |db'.jobs| && RowTold(db, debts, k) && Accounted(db, debts, k) && |debts| <= |debts'|
    requires forall i :: 0 <= i < |debts| && debts[i].job == k ==> debts'[i] == debts[i]
    requires forall i :: 0 <= i < |debts| ==> debts'[i].job == debts[i].job
    requires forall i :: |debts| <= i < |debts'| ==> debts'[i].job != k
    requires Replay(db'.events, k) == Replay(db.events, k)
    requires SaysCancelled(db'.events, k) == SaysCancelled(db.events, k)
        && SaysFlagged(db'.events, k) == SaysFlagged(db.events, k)
    requires DigestOf(db'.jobs[k]) == DigestOf(db.jobs[k]) && Plausible(db'.now, db'.jobs[k])
    ensures RowTold(db', debts', k) && Accounted(db', debts', k)
  {
    hide Plausible, Replay, SaysCancelled, SaysFlagged;
    var row, closed := db.jobs[k], SaysCancelled(db.events, k);
    forall i | 0 <= i < |debts| && debts[i].job == k
      ensures Reopens(db'.jobs[k], closed, debts'[i]) <==> Reopens(row, closed, debts[i]) {
    }
    assert LogReopened(db', debts', k) <==> LogReopened(db, debts, k);
    if row.status.Retrying? {
      var i :| 0 <= i < |debts| && Opens(debts[i], k, row);
      assert Opens(debts'[i], k, db'.jobs[k]);
    }
    if row.status.Cancelled? && !closed {
      var i :| 0 <= i < |debts| && EndsUnsaid(debts[i], k);
      assert EndsUnsaid(debts'[i], k);
    }
    if row.cancelRequested && !SaysFlagged(db.events, k) {
      var i :| 0 <= i < |debts| && FlagsUnsaid(debts[i], k);
      assert FlagsUnsaid(debts'[i], k);
    }
  }

  lemma OtherLog(db: Db, db': Db, debts: seq<Debt>, debts': seq<Debt>, j: nat, kind: EventKind, k: nat)
    requires k < |db.jobs| <= |db'.jobs| && RowTold(db, debts, k) && Accounted(db, debts, k) && |debts| <= |debts'|
    requires forall i :: 0 <= i < |debts| && debts[i].job == k ==> debts'[i] == debts[i]
    requires forall i :: 0 <= i < |debts| ==> debts'[i].job == debts[i].job
    requires forall i :: |debts| <= i < |debts'| ==> debts'[i].job != k
    requires db'.events == db.events + [JobEvent(j, kind)] && k != j
    requires DigestOf(db'.jobs[k]) == DigestOf(db.jobs[k]) && Plausible(db'.now, db'.jobs[k])
    ensures RowTold(db', debts', k) && Accounted(db', debts', k)
  {
    hide Plausible, RowTold, Accounted, Replay, SaysCancelled, SaysFlagged;
    ReplayLog(db, j, kind, k);
    SaysLog(db, j, kind, k);
    OthersTold(db, db', debts, debts', k);
  }

  lemma OtherDebt(db: Db, db': Db, d: Debt)
    requires DebtTold(db, d) && |db.jobs| <= |db'.jobs| && DigestOf(db'.jobs[d.job]) == DigestOf(db.jobs[d.job])
    requires SaysCancelled(db'.events, d.job) == SaysCancelled(db.events, d.job)
    ensures DebtTold(db', d)
  {
  }

  /** A row changes together with the event that tells of it. */
  lemma Recorded(db: Db, db': Db, debts: seq<Debt>, j: nat, row: Job, kind: EventKind)
    requires Truthful(db, debts) && j < |db.jobs| && db'.jobs == db.jobs[j := row] && db'.now == db.now
    requires db'.events == db.events + [JobEvent(j, kind)]
    requires AtOnce(db.jobs[j], row, kind) && Plausible(db.now, row)
    ensures Truthful(db', debts)
  {
    hide AtOnce, RowTold, Accounted, DebtTold, OneEnd;
    forall k | 0 <= k < |db'.jobs| ensures RowTold(db', debts, k) && Accounted(db', debts, k) {
      if k == j {
        AtOnceTold(db, db', debts, j, kind);
      } else {
        PlausibleOf(db, debts, k);
        OtherLog(db, db', debts, debts, j, kind, k);
      }
    }
    forall i | 0 <= i < |debts| ensures DebtTold(db', debts[i]) {
      if debts[i].job == j {
        AtOnceDebt(db, db', j, kind, debts[i]);
      } else {
        DebtedJob(db, debts[i]);
        SaysLog(db, j, kind, debts[i].job);
        OtherDebt(db, db', debts[i]);
      }
    }
  }

  lemma PlausibleOf(db: Db, debts: seq<Debt>, k: nat)
    requires k < |db.jobs| && RowTold(db, debts, k)
    ensures Plausible(db.now, db.jobs[k])
  {
  }

  lemma DebtedJob(db: Db, d: Debt)
    requires DebtTold(db, d)
    ensures d.job < |db.jobs|
  {
  }

  /** Writes to columns that no event tells of. */
  lemma Unrecorded(db: Db, db': Db, debts: seq<Debt>)
    requires Truthful(db, debts) && |db'.jobs| == |db.jobs| && db'.events == db.events && db.now <= db'.now
    requires forall k :: 0 <= k < |db.jobs| ==>
               && DigestOf(db'.jobs[k]) == DigestOf(db.jobs[k])
               && (Plausible(db.now, db.jobs[k]) ==> Plausible(db'.now, db'.jobs[k]))
    ensures Truthful(db', debts)
  {
    hide RowTold, Accounted, DebtTold, OneEnd, Plausible;
    forall k | 0 <= k < |db'.jobs| ensures RowTold(db', debts, k) && Accounted(db', debts, k) {
      PlausibleOf(db, debts, k);
      OthersTold(db, db', debts, debts, k);
    }
    forall i | 0 <= i < |debts| ensures DebtTold(db', debts[i]) {
      DebtedJob(db, debts[i]);
      OtherDebt(db, db', debts[i]);
    }
  }

  // ---- Row changes whose event comes later ----------------------------------------------------------

  predicate Later(r: Job, r': Job, d: Debt) {
    && r'.generation == r.generation && r'.worker == r.worker && d.event.Due?
    && (if OfRetry(d.kind) then
          r.status.Processing? && r'.status.Retrying? && r'.cancelRequested == r.cancelRequested
              && d.generation == r.generation
        else if d.kind.CancelledOff? then r.status.Waiting() && r'.status.Cancelled? && r'.cancelRequested
        else d.kind.CancelAsked? && r'.status == r.status && r'.cancelRequested)
  }

  /** The log does not move. */
  lemma LaterTold(db: Db, db': Db, debts: seq<Debt>, d: Debt)
    requires Truthful(db, debts) && d.job < |db.jobs| == |db'.jobs| && db'.events == db.events
    requires Later(db.jobs[d.job], db'.jobs[d.job], d) && Plausible(db'.now, db'.jobs[d.job])
    ensures RowTold(db', debts + [d], d.job) && Accounted(db', debts + [d], d.job)
  {
    hide Plausible, Replay, SaysCancelled, SaysFlagged, OneEnd;
    var j, debts' := d.job, debts + [d];
    assert RowTold(db, debts, j) && Accounted(db, debts, j);
    var closed := SaysCancelled(db.events, j);
    forall i | 0 <= i < |debts| && debts[i].job == j
      ensures Reopens(db'.jobs[j], closed, debts[i]) <==> Reopens(db.jobs[j], closed, debts[i]) {
    }
    assert LogReopened(db', debts', j) <==> LogReopened(db, debts, j) by {
      forall i | 0 <= i < |debts| ensures debts'[i] == debts[i] {
      }
    }
    LaterAccounted(db, db', debts, d);
  }

  lemma LaterAccounted(db: Db, db': Db, debts: seq<Debt>, d: Debt)
    requires d.job < |db.jobs| == |db'.jobs| && db'.events == db.events && Accounted(db, debts, d.job)
    requires Later(db.jobs[d.job], db'.jobs[d.job], d)
    ensures Accounted(db', debts + [d], d.job)
  {
    hide SaysCancelled, SaysFlagged;
    var j, debts', r, r' := d.job, debts + [d], db.jobs[d.job], db'.jobs[d.job];
    assert debts'[|debts|] == d;
    if r'.status.Retrying? {
      if OfRetry(d.kind) {
        assert Opens(debts'[|debts|], j, r');
      } else {
        var i :| 0 <= i < |debts| && Opens(debts[i], j, r);
        assert Opens(debts'[i], j, r');
      }
    }
    if r'.status.Cancelled? && !SaysCancelled(db'.events, j) {
      if d.kind.CancelledOff? {
        assert EndsUnsaid(debts'[|debts|], j);
      } else {
        var i :| 0 <= i < |debts| && EndsUnsaid(debts[i], j);
        assert EndsUnsaid(debts'[i], j);
      }
    }
    if r'.cancelRequested && !SaysFlagged(db'.events, j) {
      if OfRetry(d.kind) {
        var i :| 0 <= i < |debts| && FlagsUnsaid(debts[i], j);
        assert FlagsUnsaid(debts'[i], j);
      } else {
        assert FlagsUnsaid(debts'[|debts|], j);
      }
    }
  }

  lemma LaterDebt(db: Db, db': Db, d: Debt, known: Debt)
    requires DebtTold(db, known) && d.job < |db.jobs| == |db'.jobs| && db'.events == db.events && known.job == d.job
    requires Later(db.jobs[d.job], db'.jobs[d.job], d)
    ensures DebtTold(db', known)
  {
    hide SaysCancelled;
  }

  lemma NewDebtTold(db: Db, db': Db, debts: seq<Debt>, d: Debt)
    requires d.job < |db.jobs| == |db'.jobs| && db'.events == db.events && RowTold(db, debts, d.job)
    requires Later(db.jobs[d.job], db'.jobs[d.job], d)
    ensures DebtTold(db', d)
  {
    hide SaysCancelled, SaysFlagged, Plausible, Replay, Legend;
  }

  /** A row changes, and its event is owed. */
  lemma Deferred(db: Db, db': Db, debts: seq<Debt>, row: Job, d: Debt)
    requires Truthful(db, debts) && d.job < |db.jobs| && db'.jobs == db.jobs[d.job := row] && db'.now == db.now
        && db'.events == db.events
    requires Later(db.jobs[d.job], row, d) && Plausible(db.now, row)
    ensures Truthful(db', debts + [d])
  {
    hide RowTold, Accounted, DebtTold, OneEnd, Later, Plausible;
    var j, debts' := d.job, debts + [d];
    forall k | 0 <= k < |db'.jobs| ensures RowTold(db', debts', k) && Accounted(db', debts', k) {
      if k == j {
        LaterTold(db, db', debts, d);
      } else {
        PlausibleOf(db, debts, k);
        OthersTold(db, db', debts, debts', k);
      }
    }
    forall i | 0 <= i < |debts'| ensures DebtTold(db', debts'[i]) {
      if i == |debts| {
        NewDebtTold(db, db', debts, d);
      } else if debts[i].job == j {
        LaterDebt(db, db', d, debts[i]);
      } else {
        DebtedJob(db, debts[i]);
        OtherDebt(db, db', debts[i]);
      }
    }
    StillOneEnd(db, debts, row, d);
  }

  lemma StillOneEnd(db: Db, debts: seq<Debt>, row: Job, d: Debt)
    requires OneEnd(debts) && d.job < |db.jobs| && Later(db.jobs[d.job], row, d)
    requires forall i :: 0 <= i < |debts| ==> DebtTold(db, debts[i])
    ensures OneEnd(debts + [d])
  {
    forall i | 0 <= i < |debts| && debts[i].kind.CancelledOff? && d.kind.CancelledOff? ensures debts[i].job != d.job {
      assert DebtTold(db, debts[i]);
    }
  }

  // ---- Late statements --------------------------------------------------------------------------------

  /** A late retry event is the last word about its job, as it stands now. */
  lemma LateRetryTold(db: Db, debts: seq<Debt>, i: nat)
    requires Truthful(db, debts) && i < |debts| && OfRetry(debts[i].kind) && debts[i].event.Due?
    requires debts[i].job < |db.jobs|
    ensures var d := debts[i]; var debts' := debts[i := d.(event := Written(MomentOf(db, d.job)))];
            RowTold(Log(db, d.job, d.kind), debts', d.job) && Accounted(Log(db, d.job, d.kind), debts', d.job)
  {
    hide Plausible, Replay, SaysCancelled, SaysFlagged, OneEnd;
    var d := debts[i];
    var j, debts', db' := d.job, debts[i := d.(event := Written(MomentOf(db, d.job)))], Log(db, d.job, d.kind);
    assert RowTold(db, debts, j) && Accounted(db, debts, j);
    ReplayLog(db, j, d.kind, j);
    SaysLog(db, j, d.kind, j);
    assert Reopens(db'.jobs[j], SaysCancelled(db'.events, j), debts'[i]);
    assert LogReopened(db', debts', j);
    PaidAccounted(db, debts, i, j);
  }

  /** Paying a debt removes no other witness, and its own only where the log now says the same. */
  lemma PaidAccounted(db: Db, debts: seq<Debt>, i: nat, j: nat)
    requires j < |db.jobs| && Accounted(db, debts, j) && i < |debts| && debts[i].job == j
    requires OfRetry(debts[i].kind) || debts[i].kind.CancelAsked? || debts[i].kind.CancelledOff?
    ensures var d := debts[i];
            Accounted(Log(db, j, d.kind), debts[i := d.(event := Written(MomentOf(db, j)))], j)
  {
    hide SaysCancelled, SaysFlagged;
    var d, row := debts[i], db.jobs[j];
    var debts', db' := debts[i := d.(event := Written(MomentOf(db, j)))], Log(db, j, d.kind);
    SaysLog(db, j, d.kind, j);
    if row.status.Retrying? {
      var k :| 0 <= k < |debts| && Opens(debts[k], j, row);
      assert Opens(debts'[k], j, row);
    }
    if row.status.Cancelled? && !SaysCancelled(db'.events, j) {
      var k :| 0 <= k < |debts| && EndsUnsaid(debts[k], j);
      assert EndsUnsaid(debts'[k], j);
    }
    if row.cancelRequested && !SaysFlagged(db'.events, j) {
      var k :| 0 <= k < |debts| && FlagsUnsaid(debts[k], j);
      assert FlagsUnsaid(debts'[k], j);
    }
  }

  /** The late event of a cancel request: before it, the log did not say that the job was cancelled. */
  lemma LateCancelTold(db: Db, debts: seq<Debt>, i: nat)
    requires Truthful(db, debts) && i < |debts| && !OfRetry(debts[i].kind) && debts[i].event.Due?
    requires debts[i].job < |db.jobs|
    ensures var d := debts[i]; var debts' := debts[i := d.(event := Written(MomentOf(db, d.job)))];
            RowTold(Log(db, d.job, d.kind), debts', d.job) && Accounted(Log(db, d.job, d.kind), debts', d.job)
  {
    hide Plausible, Replay, SaysCancelled, SaysFlagged, OneEnd;
    var d := debts[i];
    var j, debts', db' := d.job, debts[i := d.(event := Written(MomentOf(db, d.job)))], Log(db, d.job, d.kind);
    assert RowTold(db, debts, j) && Accounted(db, debts, j) && DebtTold(db, d);
    ReplayLog(db, j, d.kind, j);
    SaysLog(db, j, d.kind, j);
    if d.kind.CancelledOff? {
      forall k | 0 <= k < |debts| && debts[k].job == j ensures !Reopens(db'.jobs[j], true, debts'[k]) {
        assert DebtTold(db, debts[k]);
      }
      assert !LogReopened(db', debts', j);
    } else {
      forall k | 0 <= k < |debts| && debts[k].job == j
        ensures Reopens(db'.jobs[j], SaysCancelled(db'.events, j), debts'[k]) <==> Reopens(db.jobs[j], SaysCancelled(db.events, j), debts[k]) {
      }
      assert LogReopened(db', debts', j) <==> LogReopened(db, debts, j);
    }
    PaidAccounted(db, debts, i, j);
  }

  lemma PaidDebtTold(db: Db, debts: seq<Debt>, i: nat, k: nat)
    requires Truthful(db, debts) && i < |debts| && k < |debts| && debts[i].event.Due?
    ensures var d := debts[i]; var debts' := debts[i := d.(event := Written(MomentOf(db, d.job)))];
            d.job < |db.jobs| && DebtTold(Log(db, d.job, d.kind), debts'[k])
  {
    hide Plausible, Replay, SaysCancelled, SaysFlagged, RowTold, Accounted;
    var d := debts[i];
    assert DebtTold(db, d) && DebtTold(db, debts[k]);
    SaysLog(db, d.job, d.kind, debts[k].job);
  }

  lemma EventPaidTold(db: Db, debts: seq<Debt>, i: nat)
    requires Truthful(db, debts) && i < |debts| && debts[i].event.Due? && debts[i].job < |db.jobs|
    ensures var d := debts[i]; Truthful(Log(db, d.job, d.kind), debts[i := d.(event := Written(MomentOf(db, d.job)))])
  {
    hide RowTold, Accounted, DebtTold, MomentOf, Plausible, OneEnd;
    var d := debts[i];
    var j, debts', db' := d.job, debts[i := d.(event := Written(MomentOf(db, d.job)))], Log(db, d.job, d.kind);
    forall k | 0 <= k < |db'.jobs| ensures RowTold(db', debts', k) && Accounted(db', debts', k) {
      if k != j {
        PlausibleOf(db, debts, k);
        OtherLog(db, db', debts, debts', j, d.kind, k);
      } else if OfRetry(d.kind) {
        LateRetryTold(db, debts, i);
      } else {
        LateCancelTold(db, debts, i);
      }
    }
    forall k | 0 <= k < |debts'| ensures DebtTold(db', debts'[k]) {
      PaidDebtTold(db, debts, i, k);
    }
    SameEnds(debts, debts');
  }

  lemma SameEnds(debts: seq<Debt>, debts': seq<Debt>)
    requires OneEnd(debts) && |debts'| == |debts|
    requires forall i :: 0 <= i < |debts| ==> debts'[i].job == debts[i].job && debts'[i].kind == debts[i].kind
    ensures OneEnd(debts')
  {
  }

  /** A debt changes in a way that the log does not see. */
  predicate SameWord(d: Debt, d': Debt) {
    && d'.job == d.job && d'.kind == d.kind && d'.generation == d.generation
    && (d'.event == d.event || (d.event.Due? && d'.event.Forgone?))
  }

  lemma Unseen(db: Db, db': Db, debts: seq<Debt>, i: nat, d': Debt)
    requires Truthful(db, debts) && i < |debts| && SameWord(debts[i], d')
    requires db'.jobs == db.jobs && db'.events == db.events && db'.now == db.now
    ensures Truthful(db', debts[i := d'])
  {
    hide Plausible, Replay, SaysCancelled, SaysFlagged, OneEnd;
    var debts' := debts[i := d'];
    forall k | 0 <= k < |db.jobs| ensures RowTold(db', debts', k) && Accounted(db', debts', k) {
      assert RowTold(db, debts, k) && Accounted(db, debts, k);
      UnseenTold(db, db', debts, i, d', k);
    }
    forall k | 0 <= k < |debts| ensures DebtTold(db', debts'[k]) {
      assert DebtTold(db, debts[k]);
    }
    SameEnds(debts, debts');
  }

  lemma UnseenTold(db: Db, db': Db, debts: seq<Debt>, i: nat, d': Debt, j: nat)
    requires j < |db.jobs| && RowTold(db, debts, j) && Accounted(db, debts, j) && i < |debts| && SameWord(debts[i], d')
    requires db'.jobs == db.jobs && db'.events == db.events && db'.now == db.now
    ensures RowTold(db', debts[i := d'], j) && Accounted(db', debts[i := d'], j)
  {
    hide Plausible, Replay, SaysCancelled, SaysFlagged;
    var debts', row, closed := debts[i := d'], db.jobs[j], SaysCancelled(db.events, j);
    forall k | 0 <= k < |debts| ensures Reopens(row, closed, debts'[k]) <==> Reopens(row, closed, debts[k]) {
    }
    assert LogReopened(db', debts', j) <==> LogReopened(db, debts, j);
    forall k | 0 <= k < |debts|
      ensures Opens(debts'[k], j, row) <==> Opens(debts[k], j, row)
      ensures EndsUnsaid(debts'[k], j) <==> EndsUnsaid(debts[k], j)
      ensures FlagsUnsaid(debts'[k], j) <==> FlagsUnsaid(debts[k], j) {
    }
    if exists k :: 0 <= k < |debts| && Opens(debts[k], j, row) {
      var k :| 0 <= k < |debts| && Opens(debts[k], j, row);
      assert Opens(debts'[k], j, row);
    }
    if exists k :: 0 <= k < |debts| && EndsUnsaid(debts[k], j) {
      var k :| 0 <= k < |debts| && EndsUnsaid(debts[k], j);
      assert EndsUnsaid(debts'[k], j);
    }
    if exists k :: 0 <= k < |debts| && FlagsUnsaid(debts[k], j) {
      var k :| 0 <= k < |debts| && FlagsUnsaid(debts[k], j);
      assert FlagsUnsaid(debts'[k], j);
    }
  }

  lemma PayTold(s: State, i: nat)
    requires Truthful(s.db, s.debts)
    ensures Truthful(Pay(s, i).db, Pay(s, i).debts)
  {
    hide Truthful;
    if i < |s.debts| && s.debts[i].job < |s.db.jobs| {
      if s.debts[i].event.Due? {
        EventPaidTold(s.db, s.debts, i);
      } else if s.debts[i].note.Due? {
        Unseen(s.db, Pay(s, i).db, s.debts, i, Pay(s, i).debts[i]);
      }
    }
  }

  lemma DefaultTold(s: State, i: nat)
    requires Truthful(s.db, s.debts)
    ensures Truthful(Default(s, i).db, Default(s, i).debts)
  {
    hide Truthful;
    if i < |s.debts| {
      Unseen(s.db, s.db, s.debts, i, Default(s, i).debts[i]);
    }
  }

  // ---- Operations -------------------------------------------------------------------------------------

  lemma ImmediateCancelTold(db: Db, debts: seq<Debt>, j: nat)
    requires Truthful(db, debts) && j < |db.jobs|
    ensures Truthful(ImmediateCancel(db, j), debts)
  {
    assert RowTold(db, debts, j);
    if db.jobs[j].status.Waiting() {
      Recorded(db, ImmediateCancel(db, j), debts, j, ImmediateCancel(db, j).jobs[j], CancelledOff);
    }
  }

  lemma ClaimTold(db: Db, debts: seq<Debt>, j: nat, w: nat)
    requires Truthful(db, debts)
    ensures Truthful(ClaimJob(db, j, w).0, debts)
  {
    hide Replay, Legend, SaysCancelled, SaysFlagged, Accounted, DebtTold, OneEnd;
    if Claimable(db, j) {
      assert RowTold(db, debts, j);
      var db' := ClaimJob(db, j, w).0;
      Recorded(db, db', debts, j, db'.jobs[j], Claimed(db.jobs[j].generation + 1, w));
    } else if j < |db.jobs| && db.jobs[j].cancelRequested {
      ImmediateCancelTold(db, debts, j);
    }
  }

  lemma BeatTold(db: Db, debts: seq<Debt>, j: nat, g: nat, percent: nat)
    requires Truthful(db, debts)
    ensures Truthful(Heartbeat(db, j, g), debts) && Truthful(Progress(db, j, g, percent), debts)
  {
    Unrecorded(db, Heartbeat(db, j, g), debts);
    Unrecorded(db, Progress(db, j, g, percent), debts);
  }

  lemma PromoteTold(db: Db, debts: seq<Debt>, j: nat, g: nat, b: nat)
    requires Truthful(db, debts)
    ensures Truthful(PromoteOutput(db, j, g, b).0, debts)
  {
    Unrecorded(db, PromoteOutput(db, j, g, b).0, debts);
  }

  /** The percentage a verdict writes: 100 for DONE, 0 for CANCELLED. */
  predicate FitsVerdict(status: Status, percent: Option<nat>) {
    && Verdict(status)
    && (status.Done? ==> percent == Some(100))
    && (status.Cancelled? ==> percent == Some(0))
  }

  lemma ConcludeTold(db: Db, debts: seq<Debt>, j: nat, status: Status, percent: Option<nat>, ttl: nat)
    requires Truthful(db, debts) && FitsVerdict(status, percent) && j < |db.jobs| && db.jobs[j].status.Processing?
    ensures Truthful(Conclude(db, j, status, percent, ttl), debts)
  {
    hide Replay, Legend, SaysCancelled, SaysFlagged, Accounted, DebtTold, OneEnd;
    assert RowTold(db, debts, j);
    Recorded(db, Conclude(db, j, status, percent, ttl), debts, j, Verdicted(db.now, db.jobs[j], status, percent, ttl), Concluded(status));
  }

  lemma RetireTold(db: Db, debts: seq<Debt>, j: nat, blob: Option<nat>)
    requires Truthful(db, debts) && j < |db.jobs| && db.jobs[j].status.Done?
    requires db.jobs[j].expiresAt.Some? && db.jobs[j].expiresAt.value <= db.now
    ensures Truthful(Retire(db, j, blob), debts)
  {
    hide Replay, Legend, SaysCancelled, SaysFlagged, Accounted, DebtTold, OneEnd;
    assert RowTold(db, debts, j);
    Recorded(db, Retire(db, j, blob), debts, j, db.jobs[j].(status := Expired, output := None), OutputExpired);
  }

  /** A verdict and its events are one transaction: it leaves nothing untold. */
  lemma TerminalTold(db: Db, debts: seq<Debt>, j: nat, g: nat, status: Status, percent: Option<nat>, ttl: nat)
    requires Truthful(db, debts) && FitsVerdict(status, percent)
    ensures Truthful(TerminalTransition(db, j, g, status, percent, ttl).0, debts)
  {
    hide Truthful;
    if Fence(db, j, g) {
      ConcludeTold(db, debts, j, status, percent, ttl);
      if status.Done? && ttl == 0 {
        var ended := Conclude(db, j, status, percent, ttl);
        RetireTold(ended, debts, j, ended.jobs[j].output);
      }
    }
  }

  lemma RetryTold(cfg: Config, s: State, w: nat)
    requires Truthful(s.db, s.debts) && w < |s.workers|
    ensures Truthful(RetryStep(cfg, s, w).db, RetryStep(cfg, s, w).debts)
  {
    hide Replay, Legend, SaysCancelled, SaysFlagged, Accounted, DebtTold, OneEnd, TerminalTransition;
    var wk := s.workers[w];
    if wk.attempts < cfg.maxAttempts {
      if wk.flagged {
        TerminalTold(s.db, s.debts, wk.job, wk.generation, Cancelled, Some(0), 0);
      } else if RetryTransition(s.db, wk.job, wk.generation, false).1 {
        assert RowTold(s.db, s.debts, wk.job);
        var db' := RetryTransition(s.db, wk.job, wk.generation, false).0;
        Deferred(s.db, db', s.debts, db'.jobs[wk.job],
                 Debt(wk.job, RetryScheduled(wk.attempts), wk.generation, Some(|s.messages|), Due, Needless));
      }
    }
  }

  lemma DeadLetterTold(db: Db, debts: seq<Debt>, j: nat)
    requires Truthful(db, debts) && j < |db.jobs|
    ensures Truthful(EmitDeadLetter(db, j), debts)
  {
    hide RowTold, Accounted, DebtTold, OneEnd;
    var db' := EmitDeadLetter(db, j);
    forall k | 0 <= k < |db.jobs| ensures RowTold(db', debts, k) && Accounted(db', debts, k) {
      PlausibleOf(db, debts, k);
      ReplayLog(db, j, DeadLettered, k);
      SaysLog(db, j, DeadLettered, k);
      OthersTold(db, db', debts, debts, k);
    }
    forall i | 0 <= i < |debts| ensures DebtTold(db', debts[i]) {
      DebtedJob(db, debts[i]);
      SaysLog(db, j, DeadLettered, debts[i].job);
      OtherDebt(db, db', debts[i]);
    }
  }

  lemma ReapCancelTold(db: Db, debts: seq<Debt>, j: nat)
    requires Truthful(db, debts)
    ensures Truthful(ReapCancel(db, j), debts)
  {
    hide Replay, Legend, SaysCancelled, SaysFlagged, Accounted, DebtTold, OneEnd;
    if j < |db.jobs| && db.jobs[j].cancelRequested && db.jobs[j].status.Processing? {
      assert RowTold(db, debts, j);
      Recorded(db, ReapCancel(db, j), debts, j, ReapCancel(db, j).jobs[j], CancelledOff);
    }
  }

  lemma ReapFailTold(db: Db, debts: seq<Debt>, j: nat, threshold: int)
    requires Truthful(db, debts)
    ensures Truthful(ReapFail(db, j, threshold), debts)
  {
    hide Replay, Legend, SaysCancelled, SaysFlagged, Accounted, DebtTold, OneEnd;
    if Abandoned(db, j, threshold) {
      assert RowTold(db, debts, j);
      var row := db.jobs[j].(status := Failed, percent := 0, finishedAt := Some(db.now), heartbeat := Some(db.now));
      var db1 := Enqueue(Log(Put(db, j, row), j, Concluded(Failed)), Note(j, NoteFailed));
      Recorded(db, db1, debts, j, row, Concluded(Failed));
      DeadLetterTold(db1, debts, j);
    }
  }

  lemma RequeueTold(db: Db, debts: seq<Debt>, j: nat, threshold: int, m: nat)
    requires Truthful(db, debts) && Abandoned(db, j, threshold)
    ensures Truthful(ReapRequeue(db, j, threshold).0, debts + [Debt(j, RequeuedStale, db.jobs[j].generation, Some(m), Due, Needless)])
  {
    hide Replay, Legend, SaysCancelled, SaysFlagged, Accounted, DebtTold, OneEnd;
    assert RowTold(db, debts, j);
    Deferred(db, ReapRequeue(db, j, threshold).0, debts, db.jobs[j].(status := Retrying),
             Debt(j, RequeuedStale, db.jobs[j].generation, Some(m), Due, Needless));
  }

  lemma ReapTold(cfg: Config, s: State, i: nat)
    requires Truthful(s.db, s.debts)
    ensures Truthful(ReapAct(cfg, s, i).db, ReapAct(cfg, s, i).debts)
  {
    hide Truthful, ReapCancel, ReapFail;
    if i < |s.reaps| {
      var item := s.reaps[i];
      ReapCancelTold(s.db, s.debts, item.job);
      ReapFailTold(s.db, s.debts, item.job, item.threshold);
      if Abandoned(s.db, item.job, item.threshold) {
        RequeueTold(s.db, s.debts, item.job, item.threshold, |s.messages|);
      }
    }
  }

  lemma DeleteTold(db: Db, debts: seq<Debt>, b: nat)
    requires Truthful(db, debts)
    ensures Truthful(DeleteBlob(db, b), debts)
  {
    Unrecorded(db, DeleteBlob(db, b), debts);
  }

  lemma InsertTold(db: Db, debts: seq<Debt>, submission: nat, r: Request, b: nat)
    requires Truthful(db, debts)
    ensures Truthful(InsertJob(db, submission, r, b), debts)
  {
    var db' := InsertJob(db, submission, r, b);
    forall k | 0 <= k < |db'.jobs| ensures RowTold(db', debts, k) && Accounted(db', debts, k) {
      if k < |db.jobs| {
        PlausibleOf(db, debts, k);
        OtherLog(db, db', debts, debts, |db.jobs|, Created, k);
      } else {
        NothingSaid(db.events, k);
        ReplayLog(db, k, Created, k);
        SaysLog(db, k, Created, k);
        assert forall i :: 0 <= i < |debts| ==> DebtTold(db, debts[i]);
      }
    }
    forall i | 0 <= i < |debts| ensures DebtTold(db', debts[i]) {
      DebtedJob(db, debts[i]);
      SaysLog(db, |db.jobs|, Created, debts[i].job);
      OtherDebt(db, db', debts[i]);
    }
  }

  lemma CancelActTold(s: State, c: nat)
    requires Truthful(s.db, s.debts)
    ensures Truthful(CancelAct(s, c).db, CancelAct(s, c).debts)
  {
    hide Replay, Legend, SaysCancelled, SaysFlagged, Accounted, DebtTold, OneEnd;
    if c < |s.cancels| && !s.cancels[c].Spent? && s.cancels[c].job < |s.db.jobs| {
      var j, s', row := s.cancels[c].job, CancelAct(s, c), s.db.jobs[s.cancels[c].job];
      assert RowTold(s.db, s.debts, j);
      if s.cancels[c].Immediate? && row.status.Waiting() {
        Deferred(s.db, s'.db, s.debts, s'.db.jobs[j], Debt(j, CancelledOff, row.generation, None, Due, Due));
      } else if s.cancels[c].Flag? && !row.cancelRequested {
        Deferred(s.db, s'.db, s.debts, s'.db.jobs[j], Debt(j, CancelAsked, row.generation, None, Due, Needless));
      } else {
        assert s'.db == s.db && s'.debts == s.debts;
      }
    }
  }

  /** Sweeps in progress decided with a time that has been. */
  ghost predicate CutoffsPast(s: State) {
    forall i :: 0 <= i < |s.expiries| ==> s.expiries[i].cutoff <= s.db.now
  }

  // ---- Actions --------------------------------------------------------------------------------------

  lemma ProgressStepTold(s: State, w: nat, o: Oracle)
    requires Truthful(s.db, s.debts) && w < |s.workers|
    ensures Truthful(ProgressStep(s, w, o).db, ProgressStep(s, w, o).debts)
  {
    hide Truthful;
    var j, g, pc := s.workers[w].job, s.workers[w].generation, s.workers[w].pc;
    var percent := if pc.AtScan? then 5 else if pc.AtValidated? then 10 else if pc.AtReportPromote? then 96
                   else if o.report.Some? then Clamp(o.report.value) else 0;
    BeatTold(s.db, s.debts, j, g, percent);
    var s' := ProgressStep(s, w, o);
    assert s'.debts == s.debts
        && (s'.db == s.db || s'.db == Heartbeat(s.db, j, g) || s'.db == Progress(s.db, j, g, percent));
  }

  lemma PersistTold(db: Db, debts: seq<Debt>, maker: Maker)
    requires Truthful(db, debts)
    ensures Truthful(PersistBlob(db, maker), debts)
  {
    Unrecorded(db, PersistBlob(db, maker), debts);
  }

  lemma OutputStepTold(s: State, w: nat)
    requires Truthful(s.db, s.debts) && w < |s.workers|
    ensures Truthful(OutputStep(s, w).db, OutputStep(s, w).debts)
  {
    hide Truthful;
    var wk := s.workers[w];
    if wk.pc.AtCreate? {
      PersistTold(s.db, s.debts, Conversion(wk.job, wk.generation, w));
    } else if wk.pc.AtPromote? {
      PromoteTold(s.db, s.debts, wk.job, wk.generation, wk.pc.blob);
    } else if wk.pc.AtDiscard? {
      DeleteTold(s.db, s.debts, wk.pc.blob);
    }
  }

  lemma VerdictStepTold(cfg: Config, s: State, w: nat, ttl: nat)
    requires Truthful(s.db, s.debts) && w < |s.workers| && (s.workers[w].pc.AtDeadLetter? ==> s.workers[w].job < |s.db.jobs|)
    ensures Truthful(VerdictStep(cfg, s, w, ttl).db, VerdictStep(cfg, s, w, ttl).debts)
  {
    hide Truthful, TerminalTransition, RetryStep;
    var wk := s.workers[w];
    if wk.pc.AtDone? {
      TerminalTold(s.db, s.debts, wk.job, wk.generation, Done, Some(100), ttl);
    } else if wk.pc.AtCancelled? {
      TerminalTold(s.db, s.debts, wk.job, wk.generation, Cancelled, Some(0), 0);
    } else if wk.pc.AtRetry? {
      RetryTold(cfg, s, w);
    } else if wk.pc.AtDeadLetter? {
      DeadLetterTold(s.db, s.debts, wk.job);
    } else {
      TerminalTold(s.db, s.debts, wk.job, wk.generation, Failed, None, 0);
    }
  }

  lemma WorkerStepTold(cfg: Config, s: State, w: nat, o: Oracle)
    requires Truthful(s.db, s.debts) && w < |s.workers| && WorkerOk(s.db, w, s.workers[w])
    ensures Truthful(WorkerStep(cfg, s, w, o).db, WorkerStep(cfg, s, w, o).debts)
  {
    hide Truthful, ClaimJob, ProgressStep, OutputStep, VerdictStep;
    var pc := s.workers[w].pc;
    if pc.AtClaim? {
      ClaimTold(s.db, s.debts, s.workers[w].job, w);
    } else {
      CheckWritesNothing(s, w);
      ProgressStepTold(s, w, o);
      OutputStepTold(s, w);
      VerdictStepTold(cfg, s, w, o.ttl);
    }
  }

  lemma CheckWritesNothing(s: State, w: nat)
    requires w < |s.workers|
    ensures CheckStep(s, w).db == s.db && CheckStep(s, w).debts == s.debts
  {
  }

  lemma SubmitStepTold(cfg: Config, s: State, i: nat, reuse: Option<nat>, ttl: nat, limited: bool)
    requires Truthful(s.db, s.debts) && i < |s.submits|
    ensures Truthful(SubmitStep(cfg, s, i, reuse, ttl, limited).db, SubmitStep(cfg, s, i, reuse, ttl, limited).debts)
  {
    hide RowTold, Accounted, DebtTold, OneEnd;
    var pc, db' := s.submits[i].pc, SubmitStep(cfg, s, i, reuse, ttl, limited).db;
    if pc.Inserting? {
      InsertStepTold(s, i, pc.blob);
    } else if pc.Dropping? || pc.DroppingRaced? || pc.Spoiling? {
      DeleteTold(s.db, s.debts, pc.blob);
    } else {
      Unrecorded(s.db, db', s.debts);
    }
  }

  lemma InsertStepTold(s: State, i: nat, b: nat)
    requires Truthful(s.db, s.debts) && i < |s.submits|
    ensures Truthful(InsertStep(s, i, b).db, InsertStep(s, i, b).debts)
  {
    InsertTold(s.db, s.debts, i, s.submits[i].request, b);
    Unrecorded(s.db, s.db.(allowed := s.db.allowed + {i}), s.debts);
  }

  lemma ExpiryActTold(s: State, i: nat)
    requires Truthful(s.db, s.debts) && CutoffsPast(s)
    ensures Truthful(ExpiryAct(s, i).db, s.debts)
  {
    if i < |s.expiries| && ExpiryAct(s, i).db != s.db {
      RetireTold(s.db, s.debts, s.expiries[i].job, s.expiries[i].blob);
    }
  }

  predicate Speaks(a: Action) {
    || a.AWorker? || a.ASubmitStep? || a.ACancelAct? || a.APay? || a.ADefault?
    || a.AReapAct? || a.AExpiryAct? || a.AGcAct?
  }

  /** Everything else leaves rows, events and debts alone; only time may pass. */
  lemma OtherTold(cfg: Config, s: State, a: Action)
    requires Truthful(s.db, s.debts) && !Speaks(a)
    ensures Truthful(Apply(cfg, s, a).db, Apply(cfg, s, a).debts)
  {
    hide Truthful;
    var db' := Apply(cfg, s, a).db;
    assert db'.jobs == s.db.jobs && db'.events == s.db.events && s.db.now <= db'.now;
    Unrecorded(s.db, db', s.debts);
  }

  lemma ApplyTold(cfg: Config, s: State, a: Action)
    requires Truthful(s.db, s.debts) && CutoffsPast(s) && WorkersOk(s)
    ensures Truthful(Apply(cfg, s, a).db, Apply(cfg, s, a).debts)
  {
    hide Truthful, WorkerStep, SubmitStep, ReapAct, CancelAct, Pay, Default, ExpiryAct, DeleteBlob;
    if !Speaks(a) {
      OtherTold(cfg, s, a);
    } else if a.AWorker? {
      if a.w < |s.workers| { WorkerStepTold(cfg, s, a.w, a.oracle); }
    } else if a.ASubmitStep? {
      if a.i < |s.submits| { SubmitStepTold(cfg, s, a.i, a.reuse, a.ttl, a.limited); }
    } else if a.ACancelAct? {
      CancelActTold(s, a.c);
    } else if a.APay? {
      PayTold(s, a.i);
    } else if a.ADefault? {
      DefaultTold(s, a.i);
    } else if a.AReapAct? {
      ReapTold(cfg, s, a.i);
    } else if a.AExpiryAct? {
      ExpiryActTold(s, a.i);
      ExpiryDebts(s, a.i);
    } else {
      if a.i < |s.orphans| { DeleteTold(s.db, s.debts, s.orphans[a.i]); }
    }
  }

  lemma ExpiryDebts(s: State, i: nat)
    ensures ExpiryAct(s, i).debts == s.debts
  {
  }

  // ---- The clock --------------------------------------------------------------------------------------

  lemma ProgressClock(s: State, w: nat, o: Oracle)
    requires w < |s.workers|
    ensures ProgressStep(s, w, o).db.now == s.db.now && OutputStep(s, w).db.now == s.db.now
  {
  }

  lemma TerminalClock(db: Db, j: nat, g: nat, status: Status, percent: Option<nat>, ttl: nat)
    requires Verdict(status)
    ensures TerminalTransition(db, j, g, status, percent, ttl).0.now == db.now
  {
  }

  lemma VerdictClock(cfg: Config, s: State, w: nat, ttl: nat)
    requires w < |s.workers|
    ensures VerdictStep(cfg, s, w, ttl).db.now == s.db.now
  {
    hide TerminalTransition;
    var j, g := s.workers[w].job, s.workers[w].generation;
    TerminalClock(s.db, j, g, Done, Some(100), ttl);
    TerminalClock(s.db, j, g, Cancelled, Some(0), 0);
    TerminalClock(s.db, j, g, Failed, None, 0);
  }

  lemma WorkerClock(cfg: Config, s: State, w: nat, o: Oracle)
    requires w < |s.workers|
    ensures WorkerStep(cfg, s, w, o).db.now == s.db.now && WorkerStep(cfg, s, w, o).expiries == s.expiries
  {
    hide ProgressStep, OutputStep, VerdictStep, CheckStep;
    ProgressClock(s, w, o);
    VerdictClock(cfg, s, w, o.ttl);
    CheckWritesNothing(s, w);
    StepFrame(cfg, s, w, o);
  }

  lemma SubmitClock(cfg: Config, s: State, i: nat, reuse: Option<nat>, ttl: nat, limited: bool)
    requires i < |s.submits|
    ensures var s' := SubmitStep(cfg, s, i, reuse, ttl, limited); s'.db.now == s.db.now && s'.expiries == s.expiries
  {
  }

  lemma ReapClock(cfg: Config, s: State, i: nat)
    ensures ReapAct(cfg, s, i).db.now == s.db.now && ReapAct(cfg, s, i).expiries == s.expiries
  {
  }

  lemma CancelClock(s: State, c: nat)
    ensures CancelAct(s, c).db.now == s.db.now && CancelAct(s, c).expiries == s.expiries
  {
  }

  lemma DebtClock(s: State, i: nat)
    ensures Pay(s, i).db.now == s.db.now && Pay(s, i).expiries == s.expiries
    ensures Default(s, i).db.now == s.db.now && Default(s, i).expiries == s.expiries
  {
  }

  lemma ExpiryClock(s: State, i: nat)
    ensures ExpiryAct(s, i).db.now == s.db.now && ExpiryAct(s, i).expiries == s.expiries
  {
  }

  lemma FileClock(s: State, i: nat)
    ensures PurgeAct(s, i).db.now == s.db.now && PurgeAct(s, i).expiries == s.expiries
    ensures GcAct(s, i).db.now == s.db.now && GcAct(s, i).expiries == s.expiries
  {
  }

  lemma RaiseClock(s: State, w: nat, kind: ErrorKind)
    requires w < |s.workers|
    ensures WorkerRaise(s, w, kind).db == s.db && WorkerRaise(s, w, kind).expiries == s.expiries
  {
  }

  predicate ClockOk(s: State, a: Action, s': State) {
    && s.db.now <= s'.db.now
    && (s'.expiries == s.expiries || (a.AExpirySnapshot? && s' == ExpirySnapshot(s, a.j)))
  }

  predicate OfSystem(a: Action) {
    a.AReapAct? || a.AExpiryAct? || a.APurgeAct? || a.AGcAct? || a.ACancelAct? || a.APay? || a.ADefault?
  }

  predicate OfProcess(a: Action) {
    a.AWorker? || a.ARaise? || a.ASubmitStep? || a.ASubmitFault?
  }

  lemma ProcessClock(cfg: Config, s: State, a: Action)
    requires OfProcess(a)
    ensures ClockOk(s, a, Apply(cfg, s, a))
  {
    hide WorkerStep, WorkerRaise, SubmitStep, SubmitFault, ReapAct, CancelAct, ExpiryAct, PurgeAct, GcAct,
         ExpirySnapshot, MoveMessage, Revoke, Deliver, CancelRead, ReapSnapshot, PurgeSnapshot, GcSnapshot, Move, Goto, JobMade, Tick;
    if a.AWorker? {
      if a.w < |s.workers| { WorkerClock(cfg, s, a.w, a.oracle); }
    } else if a.ARaise? {
      if a.w < |s.workers| { RaiseClock(s, a.w, a.kind); }
    } else if a.ASubmitStep? {
      if a.i < |s.submits| { SubmitClock(cfg, s, a.i, a.reuse, a.ttl, a.limited); }
    } else {
      if a.i < |s.submits| { FaultClock(s, a.i); }
    }
  }

  lemma SweepsClock(cfg: Config, s: State, a: Action)
    requires OfSystem(a)
    ensures Apply(cfg, s, a).db.now == s.db.now && Apply(cfg, s, a).expiries == s.expiries
  {
    hide ReapAct, CancelAct, Pay, Default, ExpiryAct, PurgeAct, GcAct, WorkerStep, WorkerRaise, SubmitStep,
         SubmitFault, Tick, ExpirySnapshot, MoveMessage, Revoke, Deliver, CancelRead, ReapSnapshot, PurgeSnapshot, GcSnapshot, Move, Goto, JobMade;
    if a.AReapAct? {
      ReapClock(cfg, s, a.i);
    } else if a.ACancelAct? {
      CancelClock(s, a.c);
    } else if a.APay? || a.ADefault? {
      DebtClock(s, a.i);
    } else if a.AExpiryAct? {
      ExpiryClock(s, a.i);
    } else {
      FileClock(s, a.i);
    }
  }

  lemma QuietClock(cfg: Config, s: State, a: Action)
    requires !OfProcess(a) && !OfSystem(a)
    ensures ClockOk(s, a, Apply(cfg, s, a))
  {
    hide Stale, PurgeDue, Collectable, Abandoned, JobMade, WorkerStep, WorkerRaise, SubmitStep, SubmitFault,
         ReapAct, CancelAct, Pay, Default, ExpiryAct, PurgeAct, GcAct;
  }

  lemma ClockStands(s: State, a: Action, s': State)
    requires s'.db.now == s.db.now && s'.expiries == s.expiries
    ensures ClockOk(s, a, s')
  {
  }

  /** The clock does not go back, and only an expiry snapshot adds a cutoff: the present. */
  lemma ApplyClock(cfg: Config, s: State, a: Action)
    ensures ClockOk(s, a, Apply(cfg, s, a))
  {
    hide Apply, ClockOk;
    if OfProcess(a) {
      ProcessClock(cfg, s, a);
    } else if OfSystem(a) {
      SweepsClock(cfg, s, a);
      ClockStands(s, a, Apply(cfg, s, a));
    } else {
      QuietClock(cfg, s, a);
    }
  }

  lemma FaultClock(s: State, i: nat)
    requires i < |s.submits|
    ensures SubmitFault(s, i).db == s.db && SubmitFault(s, i).expiries == s.expiries
  {
  }

  lemma CutoffsKeep(cfg: Config, s: State, a: Action)
    requires CutoffsPast(s)
    ensures CutoffsPast(Apply(cfg, s, a))
  {
    hide Apply;
    ApplyClock(cfg, s, a);
  }

  lemma {:induction false} LogIsTrue(cfg: Config, run: seq<Action>)
    ensures var s := Exec(cfg, START, run); Truthful(s.db, s.debts) && CutoffsPast(s)
    decreases |run|
  {
    hide Apply;
    if run != [] {
      var s := Exec(cfg, START, run[..|run| - 1]);
      LogIsTrue(cfg, run[..|run| - 1]);
      Reachable(cfg, run[..|run| - 1]);
      ApplyTold(cfg, s, run[|run| - 1]);
      CutoffsKeep(cfg, s, run[|run| - 1]);
    }
  }

  /** What the log says of a job, whatever was written late or never. */
  lemma LogTells(cfg: Config, run: seq<Action>, j: nat)
    ensures var s := Exec(cfg, START, run);
            if j < |s.db.jobs|
            then Replay(s.db.events, j) == Legend(s.db, s.debts, j) && Plausible(s.db.now, s.db.jobs[j])
            else Replay(s.db.events, j).Unknown?
  {
    hide Apply;
    LogIsTrue(cfg, run);
    var s := Exec(cfg, START, run);
    if j < |s.db.jobs| {
      assert RowTold(s.db, s.debts, j);
    } else {
      NothingSaid(s.db.events, j);
    }
  }

  /**
   * For every run the log gives each job's generation and holder, and a cancel flag only if there is
   * one. It gives the whole row if and only if it was set back to RETRYING since the last claim, and
   * after the end it tells, exactly if the job is RETRYING, and the events of cancel requests that a
   * CANCELLED or flagged row needs are there.
   */
  lemma LogReplaysIff(cfg: Config, run: seq<Action>, j: nat)
    requires j < |Exec(cfg, START, run).db.jobs|
    ensures var s := Exec(cfg, START, run); var row, d := s.db.jobs[j], Replay(s.db.events, j);
            && d.Digest? && d.generation == row.generation && d.worker == row.worker
            && (d.cancelRequested ==> row.cancelRequested)
            && (d == DigestOf(row) <==>
                  && (row.status.Retrying? <==> LogReopened(s.db, s.debts, j))
                  && (row.status.Cancelled? ==> SaysCancelled(s.db.events, j))
                  && (row.cancelRequested ==> SaysFlagged(s.db.events, j)))
  {
    hide Apply, Exec, LogReopened, SaysCancelled, SaysFlagged, Replay;
    LogIsTrue(cfg, run);
    LogTells(cfg, run, j);
    var s := Exec(cfg, START, run);
    assert RowTold(s.db, s.debts, j);
  }

  /** The late event was written, and no later update of the job had been told by then. */
  predicate InTime(d: Debt) {
    d.event.Written? && (OfRetry(d.kind) ==> d.event.at.generation == d.generation && !d.event.at.closed)
  }

  /** If no event of a job is owed, lost or overtaken, the log replays to its row. */
  lemma LogReplaysJob(cfg: Config, run: seq<Action>, j: nat)
    requires j < |Exec(cfg, START, run).db.jobs|
    requires var debts := Exec(cfg, START, run).debts;
             forall i :: 0 <= i < |debts| && debts[i].job == j ==> InTime(debts[i])
    ensures var db := Exec(cfg, START, run).db; Replay(db.events, j) == DigestOf(db.jobs[j])
  {
    hide Apply, Exec, SaysCancelled, SaysFlagged, Replay;
    LogIsTrue(cfg, run);
    LogReplaysIff(cfg, run, j);
    var s := Exec(cfg, START, run);
    var row := s.db.jobs[j];
    assert RowTold(s.db, s.debts, j) && Accounted(s.db, s.debts, j);
    if row.status.Retrying? {
      var i :| 0 <= i < |s.debts| && Opens(s.debts[i], j, row);
      assert Reopens(row, SaysCancelled(s.db.events, j), s.debts[i]);
    } else {
      forall i | 0 <= i < |s.debts| && s.debts[i].job == j ensures !Reopens(row, SaysCancelled(s.db.events, j), s.debts[i]) {
        assert DebtTold(s.db, s.debts[i]);
      }
    }
  }
}
