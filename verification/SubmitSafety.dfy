/** Every step of a submission keeps the invariant: the quota bound, the keys and the accounting. */
module SubmitSafety {
  import opened Common
  import opened Jobs
  import opened Database
  import opened DatabaseInvariant
  import opened Protocol
  import opened ProtocolInvariant
  import opened SystemSafety

  /** The blob rows and decisions of `db'` differ from those of `db` by submission `i` only. */
  ghost predicate OnlySubmit(db: Db, db': Db, i: nat) {
    && (forall b :: b in db'.blobs ==> b in db.blobs || (b < |db'.made| && db'.made[b].maker == Upload(i)))
    && (forall b :: |db.made| <= b < |db'.made| ==> db'.made[b].maker == Upload(i))
    && (forall k :: k != i ==> (k in db'.allowed <==> k in db.allowed) && (k in db'.denied <==> k in db.denied))
  }

  lemma OthersKeep(s: State, db': Db, i: nat, link: Option<nat>)
    requires SubmitsOk(s) && Consistent(s.db) && i < |s.submits|
    requires Evolves(s.db, db', link) && OnlySubmit(s.db, db', i)
    requires link.Some? ==> link.value < |db'.made| && db'.made[link.value].maker == Upload(i)
    ensures forall k :: 0 <= k < |s.submits| && k != i ==> SubmitOk(db', k, s.submits[k])
  {
    forall k | 0 <= k < |s.submits| && k != i ensures SubmitOk(db', k, s.submits[k]) {
      SubmitKeeps(s.db, db', link, k, s.submits[k]);
    }
  }

  lemma BystandersKeep(cfg: Config, s: State, s': State, link: Option<nat>)
    requires Inv(cfg, s) && Consistent(s'.db) && Evolves(s.db, s'.db, link)
    requires link.Some? ==> link.value < |s'.db.made| && s'.db.made[link.value].maker.Upload?
    requires s' == s.(db := s'.db, submits := s'.submits, messages := s'.messages)
    requires MessagesGrow(s.messages, s'.messages)
    requires forall j :: |s.db.jobs| <= j < |s'.db.jobs| ==> s'.db.jobs[j].status.Pending?
    ensures WorkersOk(s') && EnvelopesOk(s') && SweepsOk(s') && LapsedOk(s'.db, s'.lapsed) && DebtsOk(s'.db, s'.debts)
  {
    forall w | 0 <= w < |s.workers| ensures WorkerOk(s'.db, w, s.workers[w]) && EnvelopeOk(s'.messages, s.workers[w]) {
      WorkerKeeps(s.db, s'.db, link, w, s.workers[w]);
      assert EnvelopeOk(s.messages, s.workers[w]);
    }
    SweepsKeep(s, s', link);
    LapsedKeeps(s.db, s'.db, link, s.lapsed);
    DebtsKeep(s.db, s'.db, link, s.debts);
  }

  lemma QuotaMoves(cfg: Config, s: State, i: nat, db': Db, pc: SubPc)
    requires Inv(cfg, s) && i < |s.submits| && Evolves(s.db, db', None) && |db'.jobs| == |s.db.jobs|
    requires pc.Inserting? ==> QuotaFree(s, s.submits[i].request.workspace) && HasRoom(cfg, db'.jobs, s.submits[i].request.workspace)
    ensures QuotaOk(cfg, Move(s, i, db', pc))
  {
    var released := Move(s, i, db', SubPc.Crashed(None));
    QuotaKeeps(cfg, s, released, None);
  }

  lemma JobsStayMade(s: State, i: nat, db': Db, pc: SubPc)
    requires SubmitsOk(s) && i < |s.submits| && JobMade(pc) == JobMade(s.submits[i].pc)
    requires Evolves(s.db, db', None) && |db'.jobs| == |s.db.jobs|
    ensures forall j :: 0 <= j < |db'.jobs| ==> MadeBySubmit(Move(s, i, db', pc), j)
  {
    forall j | 0 <= j < |db'.jobs| ensures MadeBySubmit(Move(s, i, db', pc), j) {
      assert MadeBySubmit(s, j) && RowStep(s.db.now, s.db.jobs[j], db'.jobs[j]);
    }
  }

  lemma MakersStayKnown(s: State, i: nat, db': Db, pc: SubPc)
    requires SubmitsOk(s) && i < |s.submits| && Evolves(s.db, db', None) && OnlySubmit(s.db, db', i)
    ensures forall b :: 0 <= b < |db'.made| ==> MakerKnown(Move(s, i, db', pc), b)
  {
    forall b | 0 <= b < |db'.made| ensures MakerKnown(Move(s, i, db', pc), b) {
      if b < |s.db.made| {
        assert MakerKnown(s, b);
      }
    }
  }

  /** A submission commits `db'`, which adds no job, and moves on to `pc`. */
  lemma MoveKeeps(cfg: Config, s: State, i: nat, db': Db, pc: SubPc)
    requires Inv(cfg, s) && i < |s.submits| && JobMade(pc) == JobMade(s.submits[i].pc)
    requires Consistent(db') && Evolves(s.db, db', None) && NoNewWaiting(s.db.jobs, db'.jobs)
    requires OnlySubmit(s.db, db', i)
    requires SubmitOk(db', i, s.submits[i].(pc := pc))
    requires pc.Inserting? ==> QuotaFree(s, s.submits[i].request.workspace) && HasRoom(cfg, db'.jobs, s.submits[i].request.workspace)
    ensures Inv(cfg, Move(s, i, db', pc))
  {
    hide Consistent, Evolves, WorkersOk, EnvelopesOk, SweepsOk, LapsedOk, QuotaOk;
    var s' := Move(s, i, db', pc);
    OthersKeep(s, db', i, None);
    BystandersKeep(cfg, s, s', None);
    TicketsKeep(s.db.jobs, s.messages, db'.jobs, s.messages);
    QuotaMoves(cfg, s, i, db', pc);
    JobsStayMade(s, i, db', pc);
    MakersStayKnown(s, i, db', pc);
  }

  /** A step that reads, decides, or changes only the submission's own quota decision. */
  lemma DecideKeeps(cfg: Config, s: State, i: nat, allowed: set<nat>, denied: set<nat>, pc: SubPc)
    requires Inv(cfg, s) && i < |s.submits| && JobMade(pc) == JobMade(s.submits[i].pc)
    requires forall k :: k != i ==> (k in allowed <==> k in s.db.allowed) && (k in denied <==> k in s.db.denied)
    requires SubmitOk(s.db.(allowed := allowed, denied := denied), i, s.submits[i].(pc := pc))
    requires pc.Inserting? ==> QuotaFree(s, s.submits[i].request.workspace) && HasRoom(cfg, s.db.jobs, s.submits[i].request.workspace)
    ensures Inv(cfg, Move(s, i, s.db.(allowed := allowed, denied := denied), pc))
  {
    StutterKeeps(s.db);
    MoveKeeps(cfg, s, i, s.db.(allowed := allowed, denied := denied), pc);
  }

  lemma LookupOk(db: Db, i: nat, r: Request, reuse: Option<nat>, ttl: nat, limited: bool)
    requires Decisions(db, i, false, false) && NoUpload(db, i)
    ensures SubmitOk(db, i, Submit(r, Lookup(db, r, reuse, ttl, limited)))
  {
  }

  lemma PersistKeeps(cfg: Config, s: State, i: nat)
    requires Inv(cfg, s) && i < |s.submits| && s.submits[i].pc.Persisting?
    ensures Inv(cfg, Move(s, i, PersistBlob(s.db, Upload(i)), Admitting(|s.db.made|)))
  {
    assert SubmitOk(s.db, i, s.submits[i]);
    PersistBlobKeeps(s.db, Upload(i));
    MoveKeeps(cfg, s, i, PersistBlob(s.db, Upload(i)), Admitting(|s.db.made|));
  }

  /** Once its only upload is deleted, nothing of the submission is left. */
  lemma DroppedOk(db: Db, i: nat, b: nat)
    requires Consistent(db) && Uploaded(db, i, b)
    ensures var db' := DeleteBlob(db, b);
            && db'.jobs == db.jobs && NoUpload(db', i) && OnlySubmit(db, db', i)
            && db'.allowed == db.allowed && db'.denied == db.denied
  {
    DeleteUnlinked(db, b);
  }

  lemma DropKeeps(cfg: Config, s: State, i: nat, b: nat, pc: SubPc)
    requires Inv(cfg, s) && i < |s.submits|
    requires var sub := s.submits[i];
             || (sub.pc.Dropping? && b == sub.pc.blob && pc == SubPc.Ended(Refused(sub.pc.reason)))
             || (sub.pc.DroppingRaced? && b == sub.pc.blob && pc == Undeciding(sub.pc.job))
    ensures Inv(cfg, Move(s, i, DeleteBlob(s.db, b), pc))
  {
    hide Consistent, Evolves, DeleteBlob, TicketsOk, EnvelopesOk, SweepsOk, LapsedOk, QuotaOk, WorkersOk;
    assert SubmitOk(s.db, i, s.submits[i]);
    DeleteBlobKeeps(s.db, b);
    DroppedOk(s.db, i, b);
    MoveKeeps(cfg, s, i, DeleteBlob(s.db, b), pc);
  }

  /** Discarding the upload of a committed job: the row is protected, only the bytes go. */
  lemma SpoilKeeps(cfg: Config, s: State, i: nat, b: nat, j: nat)
    requires Inv(cfg, s) && i < |s.submits| && s.submits[i].pc == Spoiling(b, j)
    ensures Inv(cfg, Move(s, i, DeleteBlob(s.db, b), SubPc.Ended(Spoilt(j))))
  {
    hide Consistent, Evolves, DeleteBlob, TicketsOk, EnvelopesOk, SweepsOk, LapsedOk, QuotaOk, WorkersOk;
    assert SubmitOk(s.db, i, s.submits[i]);
    ProtectedDelete(s.db, b, j);
    DeleteBlobKeeps(s.db, b);
    MoveKeeps(cfg, s, i, DeleteBlob(s.db, b), SubPc.Ended(Spoilt(j)));
  }

  lemma ProtectedDelete(db: Db, b: nat, j: nat)
    requires j < |db.jobs| && db.jobs[j].input == b
    ensures DeleteBlob(db, b) == db.(bytes := db.bytes - {b})
  {
  }

  // ---- The insert -----------------------------------------------------------------------------------

  lemma InsertQuota(cfg: Config, s: State, i: nat, b: nat)
    requires Inv(cfg, s) && i < |s.submits| && s.submits[i].pc == Inserting(b)
    ensures QuotaOk(cfg, Move(s, i, InsertJob(s.db, i, s.submits[i].request, b), Dispatching(b, |s.db.jobs|)))
  {
    var r := s.submits[i].request;
    var s' := Move(s, i, InsertJob(s.db, i, r, b), Dispatching(b, |s.db.jobs|));
    assert s'.db.jobs[..|s.db.jobs|] == s.db.jobs;
    assert HasRoom(cfg, s.db.jobs, r.workspace);
    forall k | 0 <= k < |s'.submits| && s'.submits[k].pc.Inserting?
      ensures HasRoom(cfg, s'.db.jobs, s'.submits[k].request.workspace)
    {
      assert s'.submits[k] == s.submits[k] && s.submits[k].request.workspace != r.workspace;
      assert HasRoom(cfg, s.db.jobs, s.submits[k].request.workspace);
    }
  }

  lemma InsertedOk(db: Db, i: nat, r: Request, b: nat)
    requires SubmitOk(db, i, Submit(r, Inserting(b)))
    ensures var db' := InsertJob(db, i, r, b);
            SubmitOk(db', i, Submit(r, Dispatching(b, |db.jobs|))) && OnlySubmit(db, db', i)
  {
  }

  lemma InsertSubmits(cfg: Config, s: State, s': State, i: nat, b: nat)
    requires Inv(cfg, s) && i < |s.submits| && s.submits[i].pc == Inserting(b)
    requires FindJob(s.db.jobs, s.submits[i].request).None? && b in s.db.blobs
    requires s'.db == InsertJob(s.db, i, s.submits[i].request, b)
    requires s'.submits == s.submits[i := s.submits[i].(pc := Dispatching(b, |s.db.jobs|))]
    ensures SubmitsOk(s')
  {
    hide Consistent, Evolves;
    assert SubmitOk(s.db, i, s.submits[i]);
    InsertJobKeeps(s.db, i, s.submits[i].request, b);
    InsertedOk(s.db, i, s.submits[i].request, b);
    OthersKeep(s, s'.db, i, Some(b));
    forall j | 0 <= j < |s'.db.jobs| ensures MadeBySubmit(s', j) {
      if j < |s.db.jobs| {
        assert MadeBySubmit(s, j) && s'.db.jobs[j] == s.db.jobs[j];
      }
    }
    forall k | 0 <= k < |s'.db.made| ensures MakerKnown(s', k) {
      assert MakerKnown(s, k);
    }
  }

  /** The inserted job is waiting, and its message is posted in the same step. */
  lemma InsertTickets(s: State, i: nat, r: Request, b: nat)
    requires TicketsOk(s.db.jobs, s.messages)
    ensures TicketsOk(InsertJob(s.db, i, r, b).jobs, s.messages + [Message(|s.db.jobs|, Owed, false)])
  {
    var n, messages := |s.db.jobs|, s.messages + [Message(|s.db.jobs|, Owed, false)];
    assert messages[|s.messages|] == Message(n, Owed, false) && HasTicket(messages, n);
    TicketsKeep(s.db.jobs, s.messages, InsertJob(s.db, i, r, b).jobs, messages);
  }

  lemma InsertKeeps(cfg: Config, s: State, i: nat, b: nat)
    requires Inv(cfg, s) && i < |s.submits| && s.submits[i].pc == Inserting(b)
    requires FindJob(s.db.jobs, s.submits[i].request).None? && b in s.db.blobs
    ensures Inv(cfg, Post(Move(s, i, InsertJob(s.db, i, s.submits[i].request, b), Dispatching(b, |s.db.jobs|)), |s.db.jobs|))
  {
    hide WorkersOk, EnvelopesOk, SweepsOk, LapsedOk, Evolves, Consistent;
    var n, r := |s.db.jobs|, s.submits[i].request;
    var s' := Post(Move(s, i, InsertJob(s.db, i, r, b), Dispatching(b, n)), n);
    assert SubmitOk(s.db, i, s.submits[i]);
    InsertJobKeeps(s.db, i, r, b);
    InsertQuota(cfg, s, i, b);
    InsertSubmits(cfg, s, s', i, b);
    InsertTickets(s, i, r, b);
    BystandersKeep(cfg, s, s', Some(b));
  }

  lemma RaceKeeps(cfg: Config, s: State, i: nat, b: nat)
    requires Inv(cfg, s) && i < |s.submits| && s.submits[i].pc == Inserting(b)
    requires FindJob(s.db.jobs, s.submits[i].request).Some? || b !in s.db.blobs
    ensures Inv(cfg, InsertStep(s, i, b))
  {
    hide TicketsOk, EnvelopesOk, SweepsOk, LapsedOk, QuotaOk, WorkersOk, Consistent;
    assert SubmitOk(s.db, i, s.submits[i]);
    var found := FindJob(s.db.jobs, s.submits[i].request);
    if found.Some? {
      DecideKeeps(cfg, s, i, s.db.allowed + {i}, s.db.denied, Verifying(b, found.value));
    } else {
      DecideKeeps(cfg, s, i, s.db.allowed, s.db.denied, Dropping(b, Fault));
    }
  }

  /** After the commit: the dispatch returns or raises. */
  lemma DispatchKeeps(cfg: Config, s: State, i: nat, pc: SubPc)
    requires Inv(cfg, s) && i < |s.submits| && s.submits[i].pc.Dispatching?
    requires var was := s.submits[i].pc; pc == SubPc.Ended(MadeJob(was.job)) || pc == Spoiling(was.blob, was.job)
    ensures Inv(cfg, Move(s, i, s.db, pc))
  {
    assert SubmitOk(s.db, i, s.submits[i]);
    DecideKeeps(cfg, s, i, s.db.allowed, s.db.denied, pc);
  }

  // ---- All steps --------------------------------------------------------------------------------------

  lemma AdmitKeeps(cfg: Config, s: State, i: nat, b: nat)
    requires Inv(cfg, s) && i < |s.submits| && s.submits[i].pc == Admitting(b)
    ensures Inv(cfg, AdmitStep(cfg, s, i, b))
  {
    assert SubmitOk(s.db, i, s.submits[i]);
    var r := s.submits[i].request;
    if QuotaFree(s, r.workspace) {
      match ReserveQuota(cfg, s.db, r) {
        case TooLarge => DecideKeeps(cfg, s, i, s.db.allowed, s.db.denied, Denying(b, UploadTooLarge));
        case TooManyActive => DecideKeeps(cfg, s, i, s.db.allowed, s.db.denied, Denying(b, TooManyActiveJobs));
        case Admitted => DecideKeeps(cfg, s, i, s.db.allowed, s.db.denied, Inserting(b));
      }
    }
  }

  lemma DenyKeeps(cfg: Config, s: State, i: nat, b: nat, reason: Reason)
    requires Inv(cfg, s) && i < |s.submits| && s.submits[i].pc == Denying(b, reason)
    ensures Inv(cfg, Move(s, i, s.db.(denied := s.db.denied + {i}), Dropping(b, reason)))
  {
    hide Consistent, WorkersOk, TicketsOk, EnvelopesOk, SweepsOk, LapsedOk, QuotaOk;
    assert SubmitOk(s.db, i, s.submits[i]);
    DecideKeeps(cfg, s, i, s.db.allowed, s.db.denied + {i}, Dropping(b, reason));
  }

  lemma VerifyKeeps(cfg: Config, s: State, i: nat, b: nat, j: nat)
    requires Inv(cfg, s) && i < |s.submits| && s.submits[i].pc == Verifying(b, j)
    ensures j < |s.db.jobs|
    ensures Inv(cfg, Move(s, i, s.db, if Matches(s.db.jobs[j].request, s.submits[i].request) then DroppingRaced(b, j)
                                      else SubPc.Ended(Refused(RacedMismatch))))
  {
    hide Consistent, WorkersOk, TicketsOk, EnvelopesOk, SweepsOk, LapsedOk, QuotaOk;
    assert SubmitOk(s.db, i, s.submits[i]);
    if Matches(s.db.jobs[j].request, s.submits[i].request) {
      DecideKeeps(cfg, s, i, s.db.allowed, s.db.denied, DroppingRaced(b, j));
    } else {
      DecideKeeps(cfg, s, i, s.db.allowed, s.db.denied, SubPc.Ended(Refused(RacedMismatch)));
    }
  }

  lemma UndecideKeeps(cfg: Config, s: State, i: nat, j: nat)
    requires Inv(cfg, s) && i < |s.submits| && s.submits[i].pc == Undeciding(j)
    ensures Inv(cfg, Move(s, i, s.db.(allowed := s.db.allowed - {i}), SubPc.Ended(FoundJob(j))))
  {
    hide Consistent, WorkersOk, TicketsOk, EnvelopesOk, SweepsOk, LapsedOk, QuotaOk;
    assert SubmitOk(s.db, i, s.submits[i]);
    DecideKeeps(cfg, s, i, s.db.allowed - {i}, s.db.denied, SubPc.Ended(FoundJob(j)));
  }

  /** The tail of a submission: recording a denial, or cleaning up after a raced duplicate. */
  lemma TailKeeps(cfg: Config, s: State, i: nat, reuse: Option<nat>, ttl: nat, limited: bool)
    requires Inv(cfg, s) && i < |s.submits|
    requires var pc := s.submits[i].pc;
             pc.Denying? || pc.Dropping? || pc.Verifying? || pc.DroppingRaced? || pc.Undeciding?
    ensures Inv(cfg, SubmitStep(cfg, s, i, reuse, ttl, limited))
  {
    hide Inv, DeleteBlob;
    match s.submits[i].pc {
      case Denying(b, reason) => DenyKeeps(cfg, s, i, b, reason);
      case Dropping(b, reason) => DropKeeps(cfg, s, i, b, SubPc.Ended(Refused(reason)));
      case Verifying(b, j) => VerifyKeeps(cfg, s, i, b, j);
      case DroppingRaced(b, j) => DropKeeps(cfg, s, i, b, Undeciding(j));
      case Undeciding(j) => UndecideKeeps(cfg, s, i, j);
    }
  }

  lemma LookKeeps(cfg: Config, s: State, i: nat, reuse: Option<nat>, ttl: nat, limited: bool)
    requires Inv(cfg, s) && i < |s.submits| && s.submits[i].pc.Looking?
    ensures Inv(cfg, Move(s, i, s.db, Lookup(s.db, s.submits[i].request, reuse, ttl, limited)))
  {
    assert SubmitOk(s.db, i, s.submits[i]);
    LookupOk(s.db, i, s.submits[i].request, reuse, ttl, limited);
    DecideKeeps(cfg, s, i, s.db.allowed, s.db.denied, Lookup(s.db, s.submits[i].request, reuse, ttl, limited));
  }

  lemma SubmitStepKeeps(cfg: Config, s: State, i: nat, reuse: Option<nat>, ttl: nat, limited: bool)
    requires Inv(cfg, s) && i < |s.submits|
    ensures Inv(cfg, SubmitStep(cfg, s, i, reuse, ttl, limited))
  {
    hide Inv;
    match s.submits[i].pc {
      case Looking => LookKeeps(cfg, s, i, reuse, ttl, limited);
      case Persisting => PersistKeeps(cfg, s, i);
      case Admitting(b) => AdmitKeeps(cfg, s, i, b);
      case Inserting(b) =>
        if FindJob(s.db.jobs, s.submits[i].request).None? && b in s.db.blobs {
          InsertKeeps(cfg, s, i, b);
        } else {
          RaceKeeps(cfg, s, i, b);
        }
      case Dispatching(b, j) => DispatchKeeps(cfg, s, i, SubPc.Ended(MadeJob(j)));
      case Spoiling(b, j) => SpoilKeeps(cfg, s, i, b, j);
      case Ended(_) =>
      case Crashed(_) =>
      case _ => TailKeeps(cfg, s, i, reuse, ttl, limited);
    }
  }

  lemma SubmitAbortKeeps(cfg: Config, s: State, i: nat)
    requires Inv(cfg, s) && i < |s.submits|
    ensures Inv(cfg, SubmitFault(s, i))
  {
    assert SubmitOk(s.db, i, s.submits[i]);
    var pc := s.submits[i].pc;
    if pc.Admitting? || pc.Inserting? || pc.Denying? {
      DecideKeeps(cfg, s, i, s.db.allowed, s.db.denied, Dropping(pc.blob, Fault));
    } else if pc.Dispatching? {
      DispatchKeeps(cfg, s, i, Spoiling(pc.blob, pc.job));
    }
  }

  lemma SubmitCrashKeeps(cfg: Config, s: State, i: nat)
    requires Inv(cfg, s) && i < |s.submits|
    ensures Inv(cfg, Move(s, i, s.db, SubPc.Crashed(JobMade(s.submits[i].pc))))
  {
    assert SubmitOk(s.db, i, s.submits[i]);
    DecideKeeps(cfg, s, i, s.db.allowed, s.db.denied, SubPc.Crashed(JobMade(s.submits[i].pc)));
  }

  lemma SubmitBeginKeeps(cfg: Config, s: State, r: Request)
    requires Inv(cfg, s)
    ensures Inv(cfg, s.(submits := s.submits + [Submit(r, Looking)]))
  {
    var i := |s.submits|;
    var s' := s.(submits := s.submits + [Submit(r, Looking)]);
    forall b | 0 <= b < |s.db.made| ensures MakerKnown(s', b) && s.db.made[b].maker != Upload(i) {
      assert MakerKnown(s, b);
    }
    assert SubmitOk(s.db, i, Submit(r, Looking));
    forall k | 0 <= k < i ensures SubmitOk(s.db, k, s'.submits[k]) {
      assert SubmitOk(s.db, k, s.submits[k]);
    }
    forall j | 0 <= j < |s.db.jobs| ensures MadeBySubmit(s', j) {
      assert MadeBySubmit(s, j);
    }
  }
}
