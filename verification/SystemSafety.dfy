/** Every action of the system keeps the invariant, so it holds after every run. */
module SystemSafety {
  import opened Common
  import opened Jobs
  import opened Database
  import opened DatabaseInvariant
  import opened Protocol
  import opened ProtocolInvariant
  import opened WorkerSafety

  // ---- Writes of sweeps and cancel requests ---------------------------------------------------------

  /** Messages keep their job and never become untried. */
  predicate MessagesGrow(a: seq<Message>, b: seq<Message>) {
    && |a| <= |b|
    && (forall m :: 0 <= m < |a| ==> b[m].job == a[m].job && (a[m].tried ==> b[m].tried))
  }

  lemma SystemKeeps(cfg: Config, s: State, db': Db, messages: seq<Message>, cancels: seq<CancelOp>, debts: seq<Debt>)
    requires Inv(cfg, s) && DebtsOk(db', debts)
    requires Consistent(db') && Evolves(s.db, db', None) && |db'.jobs| == |s.db.jobs|
    requires UploadsUntouched(s.db, db')
    requires TicketsOk(db'.jobs, messages) && MessagesGrow(s.messages, messages)
    ensures Inv(cfg, s.(db := db', messages := messages, cancels := cancels, debts := debts))
  {
    var s' := s.(db := db', messages := messages, cancels := cancels, debts := debts);
    forall k | 0 <= k < |s.workers| ensures WorkerOk(db', k, s.workers[k]) && EnvelopeOk(messages, s.workers[k]) {
      WorkerKeeps(s.db, db', None, k, s.workers[k]);
      assert EnvelopeOk(s.messages, s.workers[k]);
    }
    SweepsKeep(s, s', None);
    LapsedKeeps(s.db, db', None, s.lapsed);
    SubmitsKeep(s, s', None);
    QuotaKeeps(cfg, s, s', None);
  }

  lemma QuietWriteKeeps(cfg: Config, s: State, db': Db)
    requires Inv(cfg, s)
    requires Consistent(db') && Evolves(s.db, db', None)
    requires NoNewWaiting(s.db.jobs, db'.jobs) && UploadsUntouched(s.db, db')
    ensures Inv(cfg, s.(db := db'))
  {
    TicketsKeep(s.db.jobs, s.messages, db'.jobs, s.messages);
    DebtsKeep(s.db, db', None, s.debts);
    SystemKeeps(cfg, s, db', s.messages, s.cancels, s.debts);
    assert s.(db := db', messages := s.messages, cancels := s.cancels, debts := s.debts) == s.(db := db');
  }

  lemma CancelQuiet(db: Db, j: nat)
    requires j < |db.jobs|
    ensures NoNewWaiting(db.jobs, ImmediateCancel(db, j).jobs) && UploadsUntouched(db, ImmediateCancel(db, j))
    ensures NoNewWaiting(db.jobs, CancelWaiting(db, j).jobs) && UploadsUntouched(db, CancelWaiting(db, j))
    ensures NoNewWaiting(db.jobs, SetCancelFlag(db, j).jobs) && UploadsUntouched(db, SetCancelFlag(db, j))
  {
  }

  lemma CancelActKeeps(cfg: Config, s: State, c: nat)
    requires Inv(cfg, s)
    ensures Inv(cfg, CancelAct(s, c))
  {
    hide Consistent, WorkersOk, EnvelopesOk, SweepsOk, LapsedOk, SubmitsOk, QuotaOk, Evolves;
    if c < |s.cancels| && !s.cancels[c].Spent? && s.cancels[c].job < |s.db.jobs| {
      var j, s' := s.cancels[c].job, CancelAct(s, c);
      CancelWaitingKeeps(s.db, j);
      SetCancelFlagKeeps(s.db, j);
      CancelQuiet(s.db, j);
      TicketsKeep(s.db.jobs, s.messages, s'.db.jobs, s.messages);
      DebtsKeep(s.db, s'.db, None, s.debts);
      CancelDebtsOk(s.db, s.cancels[c]);
      SystemKeeps(cfg, s, s'.db, s.messages, s'.cancels, s'.debts);
      assert s.(db := s'.db, messages := s.messages, cancels := s'.cancels, debts := s'.debts) == s';
    }
  }

  lemma CancelDebtsOk(db: Db, op: CancelOp)
    requires !op.Spent? && op.job < |db.jobs|
    ensures DebtsOk(if op.Immediate? then CancelWaiting(db, op.job) else SetCancelFlag(db, op.job), CancelDebts(db, op))
  {
  }

  /** A late event tells of a row and frees a message; it changes neither rows nor blobs. */
  lemma PayEventKeeps(cfg: Config, s: State, i: nat)
    requires Inv(cfg, s) && i < |s.debts| && s.debts[i].job < |s.db.jobs| && s.debts[i].event.Due?
    ensures Inv(cfg, Pay(s, i))
  {
    hide Consistent, WorkersOk, EnvelopesOk, SweepsOk, LapsedOk, SubmitsOk, QuotaOk, MomentOf;
    var s' := Pay(s, i);
    assert DebtOk(s.db, s.debts[i]);
    LogKeeps(s.db, s.debts[i].job, s.debts[i].kind);
    DebtsKeep(s.db, s'.db, None, s.debts);
    TicketsKeep(s.db.jobs, s.messages, s.db.jobs, s'.messages);
    SystemKeeps(cfg, s, s'.db, s'.messages, s.cancels, s'.debts);
  }

  lemma LogKeeps(db: Db, j: nat, kind: EventKind)
    requires Consistent(db)
    ensures Consistent(Log(db, j, kind)) && Evolves(db, Log(db, j, kind), None) && UploadsUntouched(db, Log(db, j, kind))
  {
    StutterKeeps(db);
  }

  /** A late outbox row announces a cancellation. */
  lemma PayNoteKeeps(cfg: Config, s: State, i: nat)
    requires Inv(cfg, s) && i < |s.debts| && s.debts[i].job < |s.db.jobs| && !s.debts[i].event.Due? && s.debts[i].note.Due?
    ensures Inv(cfg, Pay(s, i))
  {
    hide Consistent, WorkersOk, EnvelopesOk, SweepsOk, LapsedOk, SubmitsOk, QuotaOk, MomentOf;
    var s' := Pay(s, i);
    assert DebtOk(s.db, s.debts[i]);
    LateKeyKeeps(s.db, s.debts[i].job);
    DebtsKeep(s.db, s'.db, None, s.debts);
    SystemKeeps(cfg, s, s'.db, s.messages, s.cancels, s'.debts);
    assert s.(db := s'.db, messages := s.messages, cancels := s.cancels, debts := s'.debts) == s';
  }

  lemma PayKeeps(cfg: Config, s: State, i: nat)
    requires Inv(cfg, s)
    ensures Inv(cfg, Pay(s, i))
  {
    hide Inv;
    if i < |s.debts| && s.debts[i].job < |s.db.jobs| {
      if s.debts[i].event.Due? {
        PayEventKeeps(cfg, s, i);
      } else if s.debts[i].note.Due? {
        PayNoteKeeps(cfg, s, i);
      }
    }
  }

  lemma DefaultKeeps(cfg: Config, s: State, i: nat)
    requires Inv(cfg, s)
    ensures Inv(cfg, Default(s, i))
  {
    hide Consistent, WorkersOk, EnvelopesOk, SweepsOk, LapsedOk, SubmitsOk, QuotaOk, Evolves;
    if i < |s.debts| {
      var s' := Default(s, i);
      assert DebtOk(s.db, s.debts[i]);
      StutterKeeps(s.db);
      TicketsKeep(s.db.jobs, s.messages, s.db.jobs, s'.messages);
      SystemKeeps(cfg, s, s.db, s'.messages, s.cancels, s'.debts);
      assert s.(db := s.db, messages := s'.messages, cancels := s.cancels, debts := s'.debts) == s';
    }
  }

  lemma ReapQuiet(cfg: Config, db: Db, item: ReapItem)
    ensures var (db', requeued) := Reap(cfg, db, item);
            && UploadsUntouched(db, db')
            && |db'.jobs| == |db.jobs|
            && (forall k :: 0 <= k < |db.jobs| && k != item.job ==> db'.jobs[k] == db.jobs[k])
            && (requeued ==> item.job < |db.jobs|)
            && (!requeued ==> NoNewWaiting(db.jobs, db'.jobs))
  {
  }

  lemma ReapActKeeps(cfg: Config, s: State, i: nat)
    requires Inv(cfg, s)
    ensures Inv(cfg, ReapAct(cfg, s, i))
  {
    hide Consistent, WorkersOk, EnvelopesOk, SweepsOk, LapsedOk, SubmitsOk, QuotaOk, Evolves;
    if i < |s.reaps| {
      var item := s.reaps[i];
      var (db', requeued) := Reap(cfg, s.db, item);
      ReapKeeps(cfg, s.db, item);
      ReapQuiet(cfg, s.db, item);
      if requeued {
        var s' := ReapAct(cfg, s, i);
        PostTickets(s.db.jobs, db'.jobs, s.messages, item.job);
        DebtsKeep(s.db, db', None, s.debts);
        RequeueDebtOk(s.db, item.job, item.threshold, |s.messages|);
        SystemKeeps(cfg, s, db', s'.messages, s.cancels, s'.debts);
      } else {
        QuietWriteKeeps(cfg, s, db');
      }
    }
  }

  lemma RequeueDebtOk(db: Db, j: nat, threshold: int, m: nat)
    requires Abandoned(db, j, threshold)
    ensures DebtOk(ReapRequeue(db, j, threshold).0, Debt(j, RequeuedStale, db.jobs[j].generation, Some(m), Due, Needless))
  {
  }

  lemma ExpireQuiet(db: Db, j: nat, blob: Option<nat>, cutoff: nat)
    ensures var db' := ExpireOutput(db, j, blob, cutoff);
            NoNewWaiting(db.jobs, db'.jobs) && UploadsUntouched(db, db')
  {
    if j < |db.jobs| && db.jobs[j].status.Done? {
      RetireQuiet(db, j, blob);
    }
  }

  lemma ExpiryActKeeps(cfg: Config, s: State, i: nat)
    requires Inv(cfg, s)
    ensures Inv(cfg, ExpiryAct(s, i))
  {
    if i < |s.expiries| {
      var e := s.expiries[i];
      ExpireOutputKeeps(s.db, e.job, e.blob, e.cutoff);
      ExpireQuiet(s.db, e.job, e.blob, e.cutoff);
      QuietWriteKeeps(cfg, s, ExpireOutput(s.db, e.job, e.blob, e.cutoff));
    }
  }

  lemma PurgeActKeeps(cfg: Config, s: State, i: nat)
    requires Inv(cfg, s)
    ensures Inv(cfg, PurgeAct(s, i))
  {
    if i < |s.purges| {
      ShredKeeps(s.db, s.purges[i].blob);
      QuietWriteKeeps(cfg, s, Shred(s.db, s.purges[i].blob));
    }
  }

  lemma DeleteQuiet(db: Db, b: nat)
    ensures var db' := DeleteBlob(db, b); NoNewWaiting(db.jobs, db'.jobs) && UploadsUntouched(db, db')
  {
  }

  lemma GcActKeeps(cfg: Config, s: State, i: nat)
    requires Inv(cfg, s)
    ensures Inv(cfg, GcAct(s, i))
  {
    if i < |s.orphans| {
      DeleteBlobKeeps(s.db, s.orphans[i]);
      DeleteQuiet(s.db, s.orphans[i]);
      QuietWriteKeeps(cfg, s, DeleteBlob(s.db, s.orphans[i]));
    }
  }

  lemma PurgeNoteKeeps(cfg: Config, s: State, note: Note)
    requires Inv(cfg, s)
    ensures Inv(cfg, s.(db := s.db.(notes := s.db.notes - {note})))
  {
    StutterKeeps(s.db);
    QuietWriteKeeps(cfg, s, s.db.(notes := s.db.notes - {note}));
  }

  // ---- Snapshots and messages -------------------------------------------------------------------------

  /** Actions that read only: the tables, submissions and messages stay as they are. */
  lemma ReadKeeps(cfg: Config, s: State, s': State)
    requires Inv(cfg, s)
    requires s'.db == s.db && s'.submits == s.submits && s'.messages == s.messages && s'.lapsed == s.lapsed && s'.debts == s.debts
    requires WorkersOk(s') && EnvelopesOk(s') && SweepsOk(s')
    ensures Inv(cfg, s')
  {
    forall j | 0 <= j < |s.db.jobs| ensures MadeBySubmit(s', j) {
      assert MadeBySubmit(s, j);
    }
    forall b | 0 <= b < |s.db.made| ensures MakerKnown(s', b) {
      assert MakerKnown(s, b);
    }
  }

  lemma SnapshotKeeps(cfg: Config, s: State, s': State)
    requires Inv(cfg, s)
    requires s' == s.(cancels := s'.cancels, reaps := s'.reaps, expiries := s'.expiries, purges := s'.purges, orphans := s'.orphans)
    requires SweepsOk(s')
    ensures Inv(cfg, s')
  {
    forall w | 0 <= w < |s.workers| ensures WorkerOk(s'.db, w, s'.workers[w]) && EnvelopeOk(s'.messages, s'.workers[w]) {
      assert WorkerOk(s.db, w, s.workers[w]) && EnvelopeOk(s.messages, s.workers[w]);
    }
    ReadKeeps(cfg, s, s');
  }

  /** The stale snapshot: its attempt count is the current generation, and the claim has lapsed. */
  lemma ReapSnapshotKeeps(cfg: Config, s: State, j: nat)
    requires Inv(cfg, s)
    ensures Inv(cfg, ReapSnapshot(s, j))
  {
    if j < |s.db.jobs| {
      assert RowOk(s.db.now, s.db.made, s.db.blobs, j, s.db.jobs[j]);
      assert LapseSeen(s.db, s.lapsed, j);
    }
    SnapshotKeeps(cfg, s, ReapSnapshot(s, j));
  }

  lemma ExpirySnapshotKeeps(cfg: Config, s: State, j: nat)
    requires Inv(cfg, s)
    ensures Inv(cfg, ExpirySnapshot(s, j))
  {
    if j < |s.db.jobs| {
      assert RowOk(s.db.now, s.db.made, s.db.blobs, j, s.db.jobs[j]);
    }
    SnapshotKeeps(cfg, s, ExpirySnapshot(s, j));
  }

  lemma CancelReadKeeps(cfg: Config, s: State, j: nat)
    requires Inv(cfg, s)
    ensures Inv(cfg, CancelRead(s, j))
  {
    SnapshotKeeps(cfg, s, CancelRead(s, j));
  }

  lemma PurgeSnapshotKeeps(cfg: Config, s: State, j: nat)
    requires Inv(cfg, s)
    ensures Inv(cfg, PurgeSnapshot(cfg, s, j))
  {
    SnapshotKeeps(cfg, s, PurgeSnapshot(cfg, s, j));
  }

  lemma GcSnapshotKeeps(cfg: Config, s: State, b: nat)
    requires Inv(cfg, s)
    ensures Inv(cfg, GcSnapshot(cfg, s, b))
  {
    SnapshotKeeps(cfg, s, GcSnapshot(cfg, s, b));
  }

  lemma MessageKeeps(cfg: Config, s: State, messages: seq<Message>)
    requires Inv(cfg, s)
    requires |messages| == |s.messages| && MessagesGrow(s.messages, messages)
    requires forall m :: 0 <= m < |messages| && Live(s.messages[m]) ==>
               Live(messages[m]) || !s.db.jobs[s.messages[m].job].status.Waiting()
    ensures Inv(cfg, s.(messages := messages))
  {
    StutterKeeps(s.db);
    TicketsKeep(s.db.jobs, s.messages, s.db.jobs, messages);
    SystemKeeps(cfg, s, s.db, messages, s.cancels, s.debts);
    assert s.(db := s.db, messages := messages, cancels := s.cancels, debts := s.debts) == s.(messages := messages);
  }

  lemma DeliverKeeps(cfg: Config, s: State, m: nat)
    requires Inv(cfg, s)
    ensures Inv(cfg, Deliver(s, m))
  {
    var s' := Deliver(s, m);
    forall w | 0 <= w < |s'.workers| ensures WorkerOk(s'.db, w, s'.workers[w]) && EnvelopeOk(s'.messages, s'.workers[w]) {
      if w < |s.workers| {
        assert WorkerOk(s.db, w, s.workers[w]) && EnvelopeOk(s.messages, s.workers[w]);
      }
    }
    ReadKeeps(cfg, s, s');
  }

  lemma DbTick(db: Db, d: nat)
    requires Consistent(db)
    ensures Consistent(db.(now := db.now + d))
  {
    forall j | 0 <= j < |db.jobs| ensures RowOk(db.now + d, db.made, db.blobs, j, db.jobs[j]) {
      assert RowOk(db.now, db.made, db.blobs, j, db.jobs[j]);
    }
  }

  lemma SubmitTick(db: Db, d: nat, i: nat, sub: Submit)
    requires SubmitOk(db, i, sub)
    ensures SubmitOk(db.(now := db.now + d), i, sub)
  {
    forall b | Uploaded(db, i, b) ensures Uploaded(db.(now := db.now + d), i, b) {
    }
  }

  lemma SubmitsTick(s: State, d: nat)
    requires SubmitsOk(s)
    ensures SubmitsOk(Tick(s, d))
  {
    var s' := Tick(s, d);
    forall i | 0 <= i < |s.submits| ensures SubmitOk(s'.db, i, s.submits[i]) {
      SubmitTick(s.db, d, i, s.submits[i]);
    }
    forall j | 0 <= j < |s.db.jobs| ensures MadeBySubmit(s', j) {
      assert MadeBySubmit(s, j);
    }
    forall b | 0 <= b < |s.db.made| ensures MakerKnown(s', b) {
      assert MakerKnown(s, b);
    }
  }

  lemma SweepsTick(s: State, d: nat)
    requires SweepsOk(s)
    ensures SweepsOk(Tick(s, d)) && LapsedOk(Tick(s, d).db, Tick(s, d).lapsed)
  {
    var s' := Tick(s, d);
    forall i | 0 <= i < |s.reaps| ensures ReapOk(s'.db, s'.lapsed, s.reaps[i]) {
      assert ReapOk(s.db, s.lapsed, s.reaps[i]);
    }
    forall i | 0 <= i < |s.expiries| ensures ExpiryOk(s'.db, s.expiries[i]) {
      assert ExpiryOk(s.db, s.expiries[i]);
    }
    forall i | 0 <= i < |s.purges| ensures PurgeOk(s'.db, s.purges[i]) {
      assert PurgeOk(s.db, s.purges[i]);
    }
  }

  lemma DebtsTick(db: Db, d: nat, debts: seq<Debt>)
    requires DebtsOk(db, debts)
    ensures DebtsOk(db.(now := db.now + d), debts)
  {
    forall i | 0 <= i < |debts| ensures DebtOk(db.(now := db.now + d), debts[i]) {
      assert DebtOk(db, debts[i]);
    }
  }

  lemma TickKeeps(cfg: Config, s: State, d: nat)
    requires Inv(cfg, s)
    ensures Inv(cfg, Tick(s, d))
  {
    hide Consistent, TicketsOk, SweepsOk, LapsedOk, SubmitsOk;
    var s' := Tick(s, d);
    DbTick(s.db, d);
    SubmitsTick(s, d);
    SweepsTick(s, d);
    DebtsTick(s.db, d, s.debts);
    forall w | 0 <= w < |s.workers| ensures WorkerOk(s'.db, w, s.workers[w]) && EnvelopeOk(s.messages, s.workers[w]) {
      assert WorkerOk(s.db, w, s.workers[w]) && EnvelopeOk(s.messages, s.workers[w]);
    }
  }
}
