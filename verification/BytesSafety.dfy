/**
 * Stored bytes survive every sweep, provided that a blob is referenced within the collection
 * window after it was written: the grace period is what keeps the collector and the two
 * upload-then-reference sequences apart.
 */
module BytesSafety {
  import opened Common
  import opened Jobs
  import opened Database
  import opened DatabaseInvariant
  import opened Protocol
  import opened ProtocolInvariant
  import opened WorkerSafety
  import opened SubmitSafety
  import opened Runs
  import opened RowHistory

  // ---- What is kept -----------------------------------------------------------------------------

  predicate Stored(db: Db, b: nat) {
    b in db.blobs && b in db.bytes && db.blobs[b].deletedAt.None?
  }

  /** The input is still needed, or within its own retention. */
  predicate Retained(cfg: Config, now: nat, row: Job) {
    !row.status.Terminal() || (row.finishedAt.Some? && now <= row.finishedAt.value + cfg.inputTtl)
  }

  /** The job whose upload this submission discarded after committing it. */
  function SpoiltBy(pc: SubPc): Option<nat> {
    if pc.Ended? && pc.outcome.Spoilt? then Some(pc.outcome.job) else None
  }

  predicate SpoiltJob(s: State, j: nat) {
    && j < |s.db.jobs| && s.db.jobs[j].decision < |s.submits|
    && SpoiltBy(s.submits[s.db.jobs[j].decision].pc) == Some(j)
  }

  /** A live job can be converted, a finished one keeps its input for a while, a delivered one its output. */
  predicate RowStored(cfg: Config, db: Db, row: Job, spoilt: bool) {
    && (Retained(cfg, db.now, row) && !spoilt ==> Stored(db, row.input))
    && (spoilt ==> row.input !in db.bytes)
    && (row.output.Some? && (!row.status.Terminal() || row.status.Done?) ==> Stored(db, row.output.value))
    && (row.status.Done? ==> row.output.Some?)
  }

  ghost predicate RowsStored(cfg: Config, s: State) {
    forall j :: 0 <= j < |s.db.jobs| ==> RowStored(cfg, s.db, s.db.jobs[j], SpoiltJob(s, j))
  }

  /** A blob on its way to being referenced: all there, or gone altogether. */
  predicate WholeOrGone(db: Db, b: nat) {
    b in db.blobs ==> Stored(db, b)
  }

  predicate WorkerStored(db: Db, wk: Worker) {
    match wk.pc
    case AtPromote(b) => WholeOrGone(db, b)
    case AtDone(b) =>
      wk.job < |db.jobs| && db.jobs[wk.job].generation == wk.generation && db.jobs[wk.job].status.Processing? ==>
        db.jobs[wk.job].output == Some(b)
    case _ => true
  }

  predicate SubmitStored(db: Db, sub: Submit) {
    match sub.pc
    case Admitting(b) => WholeOrGone(db, b)
    case Inserting(b) => WholeOrGone(db, b)
    case _ => true
  }

  /** What the collector remembers is past the window and referenced by nobody, now as at its snapshot. */
  predicate OrphanOk(cfg: Config, db: Db, b: nat) {
    b < |db.made| && db.made[b].at + cfg.gcWindow < db.now && Unlinked(db, b)
  }

  /** What the input purge remembers is past its retention. */
  predicate PurgeLate(cfg: Config, db: Db, p: PurgeItem) {
    p.job < |db.jobs| && db.jobs[p.job].status.Terminal() && !Retained(cfg, db.now, db.jobs[p.job])
  }

  ghost predicate BytesInv(cfg: Config, s: State) {
    && RowsStored(cfg, s)
    && (forall w :: 0 <= w < |s.workers| ==> WorkerStored(s.db, s.workers[w]))
    && (forall i :: 0 <= i < |s.submits| ==> SubmitStored(s.db, s.submits[i]))
    && (forall i :: 0 <= i < |s.orphans| ==> OrphanOk(cfg, s.db, s.orphans[i]))
    && (forall i :: 0 <= i < |s.purges| ==> PurgeLate(cfg, s.db, s.purges[i]))
  }

  // ---- The assumption -------------------------------------------------------------------------------

  /** The blob that action `a` is about to reference, if any. */
  function Referenced(s: State, a: Action): Option<nat> {
    if a.AWorker? && a.w < |s.workers| && s.workers[a.w].pc.AtPromote? then Some(s.workers[a.w].pc.blob)
    else if a.ASubmitStep? && a.i < |s.submits| && s.submits[a.i].pc.Inserting? then Some(s.submits[a.i].pc.blob)
    else None
  }

  /** Not later than the collection window after the blob was written. */
  predicate Prompt(cfg: Config, s: State, a: Action) {
    match Referenced(s, a)
    case None => true
    case Some(b) => b < |s.db.made| ==> s.db.now <= s.db.made[b].at + cfg.gcWindow
  }

  predicate PromptRun(cfg: Config, run: seq<Action>)
    decreases |run|
  {
    run != [] ==>
      && PromptRun(cfg, run[..|run| - 1])
      && Prompt(cfg, Exec(cfg, START, run[..|run| - 1]), run[|run| - 1])
  }

  // ---- Writes that reference nothing new --------------------------------------------------------------

  predicate GentleRow(cfg: Config, db: Db, db': Db, r: Job, r': Job) {
    && r'.input == r.input && r'.decision == r.decision
    && (r'.output == r.output || r'.output.None?)
    && (!r'.status.Terminal() ==> !r.status.Terminal())
    && (Retained(cfg, db'.now, r') ==> Retained(cfg, db.now, r) && (Stored(db, r.input) ==> Stored(db', r.input)))
    && (!r'.status.Terminal() || r'.status.Done? ==>
          && r'.output == r.output
          && (r.output.Some? && Stored(db, r.output.value) ==> Stored(db', r.output.value)))
    && (r'.status.Done? ==> r.status.Done? || (r.status.Processing? && r.output.Some?))
    && (r'.status.Processing? && r'.generation == r.generation ==> r.status.Processing?)
    && r.generation <= r'.generation
  }

  ghost predicate Gentle(cfg: Config, db: Db, db': Db) {
    && |db'.jobs| == |db.jobs| && db.now <= db'.now && db.made <= db'.made
    && (forall j :: 0 <= j < |db.jobs| ==> GentleRow(cfg, db, db', db.jobs[j], db'.jobs[j]))
    && (forall b :: Unlinked(db, b) && WholeOrGone(db, b) ==> WholeOrGone(db', b))
    && (forall b :: b in db'.bytes ==> b in db.bytes || b >= |db.made|)
  }

  /** No submission discards the upload of its job. */
  predicate NothingSpoilt(s: State, s': State) {
    && |s.submits| <= |s'.submits|
    && (forall i :: 0 <= i < |s.submits| ==> SpoiltBy(s'.submits[i].pc) == SpoiltBy(s.submits[i].pc))
  }

  lemma GentleKeeps(cfg: Config, s: State, s': State)
    requires Inv(cfg, s) && BytesInv(cfg, s) && Gentle(cfg, s.db, s'.db) && NothingSpoilt(s, s')
    requires forall w :: 0 <= w < |s'.workers| ==>
               (w < |s.workers| && s'.workers[w] == s.workers[w]) || WorkerStored(s'.db, s'.workers[w])
    requires forall i :: 0 <= i < |s'.submits| ==>
               (i < |s.submits| && s'.submits[i] == s.submits[i]) || SubmitStored(s'.db, s'.submits[i])
    requires s'.orphans == s.orphans && s'.purges == s.purges
    ensures BytesInv(cfg, s')
  {
    forall w | 0 <= w < |s'.workers| ensures WorkerStored(s'.db, s'.workers[w]) {
      if w < |s.workers| && s'.workers[w] == s.workers[w] {
        assert WorkerOk(s.db, w, s.workers[w]) && WorkerStored(s.db, s.workers[w]);
        assert s.workers[w].pc.AtDone? ==> s.workers[w].generation > 0;
        assert s.workers[w].pc.AtDone? ==>
            GentleRow(cfg, s.db, s'.db, s.db.jobs[s.workers[w].job], s'.db.jobs[s.workers[w].job]);
      }
    }
    forall i | 0 <= i < |s'.submits| ensures SubmitStored(s'.db, s'.submits[i]) {
      if i < |s.submits| && s'.submits[i] == s.submits[i] {
        assert SubmitOk(s.db, i, s.submits[i]) && SubmitStored(s.db, s.submits[i]);
      }
    }
    forall i | 0 <= i < |s.orphans| ensures OrphanOk(cfg, s'.db, s.orphans[i]) {
      assert OrphanOk(cfg, s.db, s.orphans[i]);
    }
    forall i | 0 <= i < |s.purges| ensures PurgeLate(cfg, s'.db, s.purges[i]) {
      assert PurgeLate(cfg, s.db, s.purges[i]);
      assert GentleRow(cfg, s.db, s'.db, s.db.jobs[s.purges[i].job], s'.db.jobs[s.purges[i].job]);
    }
    forall j | 0 <= j < |s'.db.jobs| ensures RowStored(cfg, s'.db, s'.db.jobs[j], SpoiltJob(s', j)) {
      assert RowStored(cfg, s.db, s.db.jobs[j], SpoiltJob(s, j)) && MadeBySubmit(s, j);
      assert GentleRow(cfg, s.db, s'.db, s.db.jobs[j], s'.db.jobs[j]);
      assert RowOk(s.db.now, s.db.made, s.db.blobs, j, s.db.jobs[j]);
    }
  }

  /** Row `j` changes, blobs and bytes do not, and nothing is delivered. */
  lemma PutGentle(cfg: Config, db: Db, db': Db, j: nat, row: Job)
    requires j < |db.jobs| && db'.jobs == db.jobs[j := row] && db'.now == db.now && db'.made == db.made
    requires db'.blobs == db.blobs && db'.bytes == db.bytes
    requires GentleRow(cfg, db, db', db.jobs[j], row)
    ensures Gentle(cfg, db, db')
  {
  }

  lemma SameGentle(cfg: Config, db: Db, db': Db)
    requires db'.jobs == db.jobs && db.now <= db'.now && db'.made == db.made
    requires db'.blobs == db.blobs && db'.bytes == db.bytes
    ensures Gentle(cfg, db, db')
  {
  }

  lemma ClaimGentle(cfg: Config, db: Db, j: nat, w: nat)
    ensures Gentle(cfg, db, ClaimJob(db, j, w).0)
  {
    var db' := ClaimJob(db, j, w).0;
    if j < |db.jobs| {
      PutGentle(cfg, db, db', j, db'.jobs[j]);
    }
  }

  lemma CancelGentle(cfg: Config, db: Db, j: nat)
    requires j < |db.jobs|
    ensures Gentle(cfg, db, ImmediateCancel(db, j)) && Gentle(cfg, db, CancelWaiting(db, j)) && Gentle(cfg, db, SetCancelFlag(db, j))
  {
    PutGentle(cfg, db, ImmediateCancel(db, j), j, ImmediateCancel(db, j).jobs[j]);
    PutGentle(cfg, db, CancelWaiting(db, j), j, CancelWaiting(db, j).jobs[j]);
    PutGentle(cfg, db, SetCancelFlag(db, j), j, SetCancelFlag(db, j).jobs[j]);
  }

  lemma BeatGentle(cfg: Config, db: Db, j: nat, g: nat, percent: nat)
    ensures Gentle(cfg, db, Heartbeat(db, j, g)) && Gentle(cfg, db, Progress(db, j, g, percent))
  {
    if Fence(db, j, g) {
      PutGentle(cfg, db, Heartbeat(db, j, g), j, Heartbeat(db, j, g).jobs[j]);
      PutGentle(cfg, db, Progress(db, j, g, percent), j, Progress(db, j, g, percent).jobs[j]);
    }
  }

  lemma RetryGentle(cfg: Config, db: Db, j: nat, g: nat)
    ensures Gentle(cfg, db, RetryTransition(db, j, g, false).0)
  {
    var db' := RetryTransition(db, j, g, false).0;
    if j < |db.jobs| {
      PutGentle(cfg, db, db', j, db'.jobs[j]);
    }
  }

  lemma ReapGentle(cfg: Config, db: Db, item: ReapItem)
    ensures Gentle(cfg, db, Reap(cfg, db, item).0)
  {
    var db' := Reap(cfg, db, item).0;
    if item.job < |db.jobs| {
      PutGentle(cfg, db, db', item.job, db'.jobs[item.job]);
    }
  }

  /** A verdict without immediate expiry; DONE only with the pointer set. */
  lemma ConcludeGentle(cfg: Config, db: Db, j: nat, g: nat, status: Status, percent: Option<nat>, ttl: nat)
    requires Verdict(status) && !(status.Done? && ttl == 0)
    requires status.Done? && Fence(db, j, g) ==> db.jobs[j].output.Some?
    ensures Gentle(cfg, db, TerminalTransition(db, j, g, status, percent, ttl).0)
  {
    var db' := TerminalTransition(db, j, g, status, percent, ttl).0;
    if Fence(db, j, g) {
      PutGentle(cfg, db, db', j, db'.jobs[j]);
    }
  }

  /** A zero retention shreds the delivered output and nothing else. */
  lemma ConcludeAtOnceGentle(cfg: Config, db: Db, j: nat, g: nat, percent: Option<nat>)
    requires Fence(db, j, g) ==> db.jobs[j].output.Some? && OnlyOutputOf(db, j, db.jobs[j].output.value)
    ensures Gentle(cfg, db, TerminalTransition(db, j, g, Done, percent, 0).0)
  {
    if Fence(db, j, g) {
      RetireGentle(cfg, db, Conclude(db, j, Done, percent, 0), j, db.jobs[j].output.value);
    }
  }

  /** No row but `j` points at `b`, and `j` does not read it. */
  predicate OnlyOutputOf(db: Db, j: nat, b: nat) {
    forall k :: 0 <= k < |db.jobs| ==> db.jobs[k].input != b && (k != j ==> db.jobs[k].output != Some(b))
  }

  /** Outputs carry the number of their job. */
  lemma OutputsDisjoint(db: Db, j: nat, b: nat)
    requires Consistent(db) && b < |db.made| && db.made[b].maker.Conversion? && db.made[b].maker.job == j
    ensures OnlyOutputOf(db, j, b)
  {
    forall k | 0 <= k < |db.jobs|
      ensures db.jobs[k].input != b && (k != j ==> db.jobs[k].output != Some(b))
    {
      assert RowOk(db.now, db.made, db.blobs, k, db.jobs[k]);
    }
  }

  /** Retiring job `j` with its own output; `ended` may differ from `db` in row `j` and the books. */
  lemma RetireGentle(cfg: Config, db: Db, ended: Db, j: nat, b: nat)
    requires j < |db.jobs| && db.jobs[j].output == Some(b) && OnlyOutputOf(db, j, b)
    requires |ended.jobs| == |db.jobs| && ended.jobs == db.jobs[j := ended.jobs[j]]
    requires ended.now == db.now && ended.made == db.made && ended.blobs == db.blobs && ended.bytes == db.bytes
    requires ended.jobs[j].input == db.jobs[j].input && ended.jobs[j].decision == db.jobs[j].decision
    requires ended.jobs[j].generation == db.jobs[j].generation
    requires Retained(cfg, db.now, db.jobs[j]) || ended.jobs[j].finishedAt == db.jobs[j].finishedAt
    ensures Gentle(cfg, db, Retire(ended, j, Some(b)))
  {
    var db' := Retire(ended, j, Some(b));
    forall k | 0 <= k < |db.jobs| ensures GentleRow(cfg, db, db', db.jobs[k], db'.jobs[k]) {
    }
    forall c | Unlinked(db, c) && WholeOrGone(db, c) ensures WholeOrGone(db', c) {
      assert c != b;
    }
  }

  lemma PersistGentle(cfg: Config, db: Db, maker: Maker)
    requires Consistent(db)
    ensures Gentle(cfg, db, PersistBlob(db, maker)) && WholeOrGone(PersistBlob(db, maker), |db.made|)
  {
  }

  lemma DeleteGentle(cfg: Config, db: Db, b: nat)
    requires Unlinked(db, b)
    ensures Gentle(cfg, db, DeleteBlob(db, b))
  {
    DeleteUnlinked(db, b);
  }

  /** The purge takes the input of a terminal job, which no other row reads. */
  lemma ShredInputGentle(cfg: Config, db: Db, j: nat)
    requires Consistent(db) && j < |db.jobs| && db.jobs[j].status.Terminal() && !Retained(cfg, db.now, db.jobs[j])
    requires forall k :: 0 <= k < |db.jobs| && k != j ==> db.jobs[k].input != db.jobs[j].input
    ensures Gentle(cfg, db, Shred(db, db.jobs[j].input))
  {
    var b := db.jobs[j].input;
    assert RowOk(db.now, db.made, db.blobs, j, db.jobs[j]);
    forall k | 0 <= k < |db.jobs| ensures GentleRow(cfg, db, Shred(db, b), db.jobs[k], db.jobs[k]) {
      assert RowOk(db.now, db.made, db.blobs, k, db.jobs[k]);
    }
  }

  // ---- Actions ----------------------------------------------------------------------------------------

  lemma MoveKeeps(cfg: Config, s: State, s': State, w: nat)
    requires Inv(cfg, s) && BytesInv(cfg, s) && Gentle(cfg, s.db, s'.db) && w < |s.workers|
    requires |s'.workers| == |s.workers| && s'.submits == s.submits && s'.orphans == s.orphans && s'.purges == s.purges
    requires forall k :: 0 <= k < |s.workers| && k != w ==> s'.workers[k] == s.workers[k]
    requires WorkerStored(s'.db, s'.workers[w])
    ensures BytesInv(cfg, s')
  {
    GentleKeeps(cfg, s, s');
  }

  lemma ClaimStored(cfg: Config, s: State, w: nat)
    requires Inv(cfg, s) && BytesInv(cfg, s) && w < |s.workers|
    ensures BytesInv(cfg, ClaimStep(s, w))
  {
    ClaimGentle(cfg, s.db, s.workers[w].job, w);
    MoveKeeps(cfg, s, ClaimStep(s, w), w);
  }

  lemma ProgressStored(cfg: Config, s: State, w: nat, o: Oracle)
    requires Inv(cfg, s) && BytesInv(cfg, s) && w < |s.workers|
    ensures BytesInv(cfg, ProgressStep(s, w, o))
  {
    hide Inv, Progress, Heartbeat;
    var j, g, pc, s' := s.workers[w].job, s.workers[w].generation, s.workers[w].pc, ProgressStep(s, w, o);
    var percent := if pc.AtScan? then 5 else if pc.AtValidated? then 10 else if pc.AtReportPromote? then 96
                   else if o.report.Some? then Clamp(o.report.value) else 0;
    assert s'.db == s.db || s'.db == Heartbeat(s.db, j, g) || s'.db == Progress(s.db, j, g, percent);
    BeatGentle(cfg, s.db, j, g, percent);
    SameGentle(cfg, s.db, s.db);
    assert s'.workers[w] == s.workers[w] || (!s'.workers[w].pc.AtPromote? && !s'.workers[w].pc.AtDone?);
    assert WorkerStored(s.db, s.workers[w]);
    if s' != s {
      MoveKeeps(cfg, s, s', w);
    }
  }

  lemma CheckStored(cfg: Config, s: State, w: nat, s': State)
    requires Inv(cfg, s) && BytesInv(cfg, s) && w < |s.workers|
    requires s'.db == s.db && s'.submits == s.submits && s'.orphans == s.orphans && s'.purges == s.purges && |s'.workers| == |s.workers|
    requires forall k :: 0 <= k < |s.workers| && k != w ==> s'.workers[k] == s.workers[k]
    requires WorkerStored(s'.db, s'.workers[w])
    ensures BytesInv(cfg, s')
  {
    SameGentle(cfg, s.db, s.db);
    MoveKeeps(cfg, s, s', w);
  }

  lemma CheckFrame(s: State, w: nat)
    requires w < |s.workers|
    ensures var s' := CheckStep(s, w);
            && s'.db == s.db && s'.submits == s.submits && s'.orphans == s.orphans && s'.purges == s.purges && |s'.workers| == |s.workers|
            && (forall k :: 0 <= k < |s.workers| && k != w ==> s'.workers[k] == s.workers[k])
            && (s'.workers[w] == s.workers[w] || (!s'.workers[w].pc.AtPromote? && !s'.workers[w].pc.AtDone?))
  {
  }

  lemma CreateStored(cfg: Config, s: State, w: nat)
    requires Inv(cfg, s) && BytesInv(cfg, s) && w < |s.workers| && s.workers[w].pc.AtCreate?
    ensures BytesInv(cfg, OutputStep(s, w))
  {
    PersistGentle(cfg, s.db, Conversion(s.workers[w].job, s.workers[w].generation, w));
    MoveKeeps(cfg, s, OutputStep(s, w), w);
  }

  lemma DiscardStored(cfg: Config, s: State, w: nat)
    requires Inv(cfg, s) && BytesInv(cfg, s) && w < |s.workers| && s.workers[w].pc.AtDiscard?
    requires Unlinked(s.db, s.workers[w].pc.blob)
    ensures BytesInv(cfg, OutputStep(s, w))
  {
    hide Inv, BytesInv, DeleteBlob;
    DeleteGentle(cfg, s.db, s.workers[w].pc.blob);
    var s' := Write(s, w, DeleteBlob(s.db, s.workers[w].pc.blob), Handler(s.workers[w].pc.cause));
    MoveKeeps(cfg, s, s', w);
  }

  /** A prompt promotion: the blob is whole, and the collector has never seen it. */
  lemma PromoteStored(cfg: Config, s: State, w: nat, b: nat)
    requires Inv(cfg, s) && BytesInv(cfg, s) && w < |s.workers| && s.workers[w].pc == AtPromote(b)
    requires b < |s.db.made| && s.db.now <= s.db.made[b].at + cfg.gcWindow
    ensures BytesInv(cfg, PromoteStep(s, w, b))
  {
    hide Consistent, TicketsOk, EnvelopesOk, SweepsOk, LapsedOk, SubmitsOk, QuotaOk;
    var wk, s' := s.workers[w], PromoteStep(s, w, b);
    assert WorkerOk(s.db, w, wk) && WorkerStored(s.db, wk);
    if s'.db == s.db {
      SameGentle(cfg, s.db, s.db);
      MoveKeeps(cfg, s, s', w);
    } else {
      PromoteRows(cfg, s, w, b);
      forall k | 0 <= k < |s.workers| ensures WorkerStored(s'.db, s'.workers[k]) {
        assert WorkerOk(s.db, k, s.workers[k]) && WorkerStored(s.db, s.workers[k]);
      }
      forall i | 0 <= i < |s.submits| ensures SubmitStored(s'.db, s.submits[i]) {
        assert SubmitStored(s.db, s.submits[i]);
      }
      forall i | 0 <= i < |s.orphans| ensures OrphanOk(cfg, s'.db, s.orphans[i]) {
        assert OrphanOk(cfg, s.db, s.orphans[i]);
      }
    }
  }

  lemma PromoteRows(cfg: Config, s: State, w: nat, b: nat)
    requires w < |s.workers| && RowsStored(cfg, s) && WholeOrGone(s.db, b)
    requires PromoteStep(s, w, b).db != s.db
    ensures RowsStored(cfg, PromoteStep(s, w, b))
    ensures PromoteStep(s, w, b).workers[w].pc == AtDone(b)
    ensures b in s.db.blobs && PromoteStep(s, w, b).db == PromoteOutput(s.db, s.workers[w].job, s.workers[w].generation, b).0
    ensures PromoteOutput(s.db, s.workers[w].job, s.workers[w].generation, b).1
  {
    var s' := PromoteStep(s, w, b);
    forall j | 0 <= j < |s'.db.jobs| ensures RowStored(cfg, s'.db, s'.db.jobs[j], SpoiltJob(s', j)) {
      assert RowStored(cfg, s.db, s.db.jobs[j], SpoiltJob(s, j));
    }
  }

  lemma DoneStored(cfg: Config, s: State, w: nat, ttl: nat)
    requires Inv(cfg, s) && BytesInv(cfg, s) && w < |s.workers| && s.workers[w].pc.AtDone?
    ensures BytesInv(cfg, ConcludeStep(s, w, Done, Some(100), ttl, false))
  {
    var wk := s.workers[w];
    assert WorkerOk(s.db, w, wk) && WorkerStored(s.db, wk);
    if ttl == 0 {
      OutputKnown(s.db, wk.job);
      ConcludeAtOnceGentle(cfg, s.db, wk.job, wk.generation, Some(100));
    } else {
      ConcludeGentle(cfg, s.db, wk.job, wk.generation, Done, Some(100), ttl);
    }
    MoveKeeps(cfg, s, ConcludeStep(s, w, Done, Some(100), ttl, false), w);
  }

  lemma OutputKnown(db: Db, j: nat)
    requires Consistent(db)
    ensures j < |db.jobs| && db.jobs[j].output.Some? ==> OnlyOutputOf(db, j, db.jobs[j].output.value)
  {
    if j < |db.jobs| && db.jobs[j].output.Some? {
      assert RowOk(db.now, db.made, db.blobs, j, db.jobs[j]);
      OutputsDisjoint(db, j, db.jobs[j].output.value);
    }
  }

  lemma EndStored(cfg: Config, s: State, w: nat, status: Status, percent: Option<nat>, deadLetter: bool)
    requires Inv(cfg, s) && BytesInv(cfg, s) && w < |s.workers| && Verdict(status) && !status.Done?
    ensures BytesInv(cfg, ConcludeStep(s, w, status, percent, 0, deadLetter))
  {
    ConcludeGentle(cfg, s.db, s.workers[w].job, s.workers[w].generation, status, percent, 0);
    MoveKeeps(cfg, s, ConcludeStep(s, w, status, percent, 0, deadLetter), w);
  }

  lemma RetryStored(cfg: Config, s: State, w: nat)
    requires Inv(cfg, s) && BytesInv(cfg, s) && w < |s.workers| && s.workers[w].pc.AtRetry?
    ensures BytesInv(cfg, RetryStep(cfg, s, w))
  {
    var wk := s.workers[w];
    assert WorkerOk(s.db, w, wk);
    RetryGentle(cfg, s.db, wk.job, wk.generation);
    SameGentle(cfg, s.db, s.db);
    MoveKeeps(cfg, s, RetryStep(cfg, s, w), w);
  }

  lemma VerdictStored(cfg: Config, s: State, w: nat, ttl: nat)
    requires Inv(cfg, s) && BytesInv(cfg, s) && w < |s.workers|
    ensures BytesInv(cfg, VerdictStep(cfg, s, w, ttl))
  {
    hide BytesInv, Inv;
    var pc := s.workers[w].pc;
    if pc.AtDone? {
      DoneStored(cfg, s, w, ttl);
    } else if pc.AtCancelled? {
      EndStored(cfg, s, w, Cancelled, Some(0), false);
    } else if pc.AtUnsupported? {
      EndStored(cfg, s, w, Failed, None, false);
    } else if pc.AtFail? {
      EndStored(cfg, s, w, Failed, None, pc.transient);
    } else if pc.AtRetry? {
      RetryStored(cfg, s, w);
    } else if pc.AtDeadLetter? {
      SameGentle(cfg, s.db, EmitDeadLetter(s.db, s.workers[w].job));
      MoveKeeps(cfg, s, VerdictStep(cfg, s, w, ttl), w);
    }
  }

  lemma OutputStored(cfg: Config, s: State, w: nat)
    requires Inv(cfg, s) && BytesInv(cfg, s) && w < |s.workers|
    requires s.workers[w].pc.AtPromote? ==>
               s.workers[w].pc.blob < |s.db.made| && s.db.now <= s.db.made[s.workers[w].pc.blob].at + cfg.gcWindow
    ensures BytesInv(cfg, OutputStep(s, w))
  {
    var pc := s.workers[w].pc;
    if pc.AtCreate? {
      CreateStored(cfg, s, w);
    } else if pc.AtPromote? {
      PromoteStored(cfg, s, w, pc.blob);
    } else if pc.AtRecheck? {
      CheckStored(cfg, s, w, RecheckStep(s, w, pc.blob));
    } else if pc.AtDiscard? {
      assert WorkerOk(s.db, w, s.workers[w]);
      DiscardStored(cfg, s, w);
    }
  }

  lemma WorkerStepStored(cfg: Config, s: State, w: nat, o: Oracle)
    requires Inv(cfg, s) && BytesInv(cfg, s) && w < |s.workers| && Prompt(cfg, s, AWorker(w, o))
    ensures BytesInv(cfg, WorkerStep(cfg, s, w, o))
  {
    hide BytesInv, ProgressStep, OutputStep, VerdictStep, ClaimStep, Consistent, TicketsOk, EnvelopesOk, SweepsOk, LapsedOk, SubmitsOk, QuotaOk;
    var pc, s' := s.workers[w].pc, WorkerStep(cfg, s, w, o);
    if pc.AtClaim? {
      ClaimStored(cfg, s, w);
    } else if pc.AtCheckScan? || pc.AtCheckConvert? || pc.AtCheckPromote? {
      CheckFrame(s, w);
      CheckStored(cfg, s, w, CheckStep(s, w));
    } else if pc.AtExit? {
      CheckStored(cfg, s, w, s');
    } else if pc.AtCreate? || pc.AtPromote? || pc.AtRecheck? || pc.AtDiscard? {
      assert WorkerOk(s.db, w, s.workers[w]);
      OutputStored(cfg, s, w);
    } else if pc.AtDone? || pc.AtCancelled? || pc.AtUnsupported? || pc.AtRetry? || pc.AtFail? || pc.AtDeadLetter? {
      VerdictStored(cfg, s, w, o.ttl);
    } else if !pc.Gone? {
      ProgressStored(cfg, s, w, o);
    }
  }

  lemma SweepStored(cfg: Config, s: State, db': Db)
    requires Inv(cfg, s) && BytesInv(cfg, s) && Gentle(cfg, s.db, db')
    ensures BytesInv(cfg, s.(db := db'))
    ensures forall m, d :: BytesInv(cfg, s.(db := db', messages := m, debts := d))
    ensures forall c, d :: BytesInv(cfg, s.(db := db', cancels := c, debts := d))
  {
    GentleKeeps(cfg, s, s.(db := db'));
  }

  lemma ExpiryStored(cfg: Config, s: State, i: nat)
    requires Inv(cfg, s) && BytesInv(cfg, s)
    ensures BytesInv(cfg, ExpiryAct(s, i))
  {
    if i < |s.expiries| {
      var e := s.expiries[i];
      assert ExpiryOk(s.db, e) && RowStored(cfg, s.db, s.db.jobs[e.job], SpoiltJob(s, e.job));
      if ExpireOutput(s.db, e.job, e.blob, e.cutoff) != s.db {
        OutputsDisjoint(s.db, e.job, e.blob.value);
        RetireGentle(cfg, s.db, s.db, e.job, e.blob.value);
        SweepStored(cfg, s, ExpiryAct(s, i).db);
      }
    }
  }

  /** Jobs have their inputs to themselves: an input names the submission that made the job. */
  lemma InputsDisjoint(cfg: Config, s: State, j: nat, k: nat)
    requires Inv(cfg, s) && j < |s.db.jobs| && k < |s.db.jobs| && j != k
    ensures s.db.jobs[j].input != s.db.jobs[k].input
  {
    assert MadeBySubmit(s, j) && MadeBySubmit(s, k);
    assert RowOk(s.db.now, s.db.made, s.db.blobs, j, s.db.jobs[j]);
    assert RowOk(s.db.now, s.db.made, s.db.blobs, k, s.db.jobs[k]);
  }

  lemma PurgeStored(cfg: Config, s: State, i: nat)
    requires Inv(cfg, s) && BytesInv(cfg, s)
    ensures BytesInv(cfg, PurgeAct(s, i))
  {
    if i < |s.purges| {
      var j := s.purges[i].job;
      assert PurgeOk(s.db, s.purges[i]) && PurgeLate(cfg, s.db, s.purges[i]);
      forall k | 0 <= k < |s.db.jobs| && k != j ensures s.db.jobs[k].input != s.db.jobs[j].input {
        InputsDisjoint(cfg, s, j, k);
      }
      ShredInputGentle(cfg, s.db, j);
      SweepStored(cfg, s, PurgeAct(s, i).db);
    }
  }

  lemma GcStored(cfg: Config, s: State, i: nat)
    requires Inv(cfg, s) && BytesInv(cfg, s)
    ensures BytesInv(cfg, GcAct(s, i))
  {
    if i < |s.orphans| {
      assert OrphanOk(cfg, s.db, s.orphans[i]);
      DeleteGentle(cfg, s.db, s.orphans[i]);
      SweepStored(cfg, s, GcAct(s, i).db);
    }
  }

  lemma ReapStored(cfg: Config, s: State, i: nat)
    requires Inv(cfg, s) && BytesInv(cfg, s)
    ensures BytesInv(cfg, ReapAct(cfg, s, i))
  {
    if i < |s.reaps| {
      ReapGentle(cfg, s.db, s.reaps[i]);
      SweepStored(cfg, s, Reap(cfg, s.db, s.reaps[i]).0);
    }
  }

  lemma CancelStored(cfg: Config, s: State, c: nat)
    requires Inv(cfg, s) && BytesInv(cfg, s)
    ensures BytesInv(cfg, CancelAct(s, c))
  {
    if c < |s.cancels| && !s.cancels[c].Spent? && s.cancels[c].job < |s.db.jobs| {
      CancelGentle(cfg, s.db, s.cancels[c].job);
      SweepStored(cfg, s, CancelAct(s, c).db);
    }
  }

  // ---- Submissions ------------------------------------------------------------------------------------

  lemma SubmitMoveStored(cfg: Config, s: State, i: nat, db': Db, pc: SubPc)
    requires Inv(cfg, s) && BytesInv(cfg, s) && i < |s.submits| && Gentle(cfg, s.db, db')
    requires SubmitStored(db', s.submits[i].(pc := pc)) && SpoiltBy(pc) == SpoiltBy(s.submits[i].pc)
    ensures BytesInv(cfg, Move(s, i, db', pc))
  {
    GentleKeeps(cfg, s, Move(s, i, db', pc));
  }

  /** A prompt insert: the upload is whole, and the collector has never seen it. */
  lemma InsertStored(cfg: Config, s: State, i: nat, b: nat)
    requires Inv(cfg, s) && BytesInv(cfg, s) && i < |s.submits| && s.submits[i].pc == Inserting(b)
    requires b < |s.db.made| && s.db.now <= s.db.made[b].at + cfg.gcWindow
    ensures BytesInv(cfg, InsertStep(s, i, b))
  {
    var s' := InsertStep(s, i, b);
    assert SubmitStored(s.db, s.submits[i]);
    if |s'.db.jobs| == |s.db.jobs| {
      IdleStored(cfg, s, i, s'.db, s'.submits[i].pc);
    } else {
      NewRowStored(cfg, s, i, b);
    }
  }

  lemma NewRowStored(cfg: Config, s: State, i: nat, b: nat)
    requires Inv(cfg, s) && BytesInv(cfg, s) && i < |s.submits| && s.submits[i].pc.Inserting? && Stored(s.db, b)
    requires b < |s.db.made| && s.db.now <= s.db.made[b].at + cfg.gcWindow
    ensures BytesInv(cfg, Post(Move(s, i, InsertJob(s.db, i, s.submits[i].request, b), Dispatching(b, |s.db.jobs|)), |s.db.jobs|))
  {
    hide Consistent, TicketsOk, EnvelopesOk, SweepsOk, LapsedOk, QuotaOk;
    var s' := Post(Move(s, i, InsertJob(s.db, i, s.submits[i].request, b), Dispatching(b, |s.db.jobs|)), |s.db.jobs|);
    forall j | 0 <= j < |s'.db.jobs| ensures RowStored(cfg, s'.db, s'.db.jobs[j], SpoiltJob(s', j)) {
      if j < |s.db.jobs| {
        assert RowStored(cfg, s.db, s.db.jobs[j], SpoiltJob(s, j)) && MadeBySubmit(s, j) && s'.db.jobs[j] == s.db.jobs[j];
      }
    }
    forall w | 0 <= w < |s.workers| ensures WorkerStored(s'.db, s.workers[w]) {
      assert WorkerOk(s.db, w, s.workers[w]) && WorkerStored(s.db, s.workers[w]);
    }
    forall k | 0 <= k < |s.submits| ensures SubmitStored(s'.db, s'.submits[k]) {
      assert SubmitStored(s.db, s.submits[k]);
    }
    forall k | 0 <= k < |s.orphans| ensures OrphanOk(cfg, s'.db, s.orphans[k]) {
      assert OrphanOk(cfg, s.db, s.orphans[k]);
    }
    forall k | 0 <= k < |s.purges| ensures PurgeLate(cfg, s'.db, s.purges[k]) {
      assert PurgeLate(cfg, s.db, s.purges[k]);
    }
  }

  /** Discarding the upload of a committed job spoils that job, and touches no other file. */
  lemma SpoilStored(cfg: Config, s: State, i: nat, b: nat, j: nat)
    requires Inv(cfg, s) && BytesInv(cfg, s) && i < |s.submits| && s.submits[i].pc == Spoiling(b, j)
    ensures BytesInv(cfg, Move(s, i, DeleteBlob(s.db, b), SubPc.Ended(Spoilt(j))))
  {
    hide DeleteBlob, RowsStored, Consistent, TicketsOk, EnvelopesOk, SweepsOk, LapsedOk, QuotaOk;
    var s' := Move(s, i, DeleteBlob(s.db, b), SubPc.Ended(Spoilt(j)));
    assert SubmitOk(s.db, i, s.submits[i]);
    ProtectedDelete(s.db, b, j);
    SpoilRows(cfg, s, s', i, b, j);
    forall w | 0 <= w < |s.workers| ensures WorkerStored(s'.db, s.workers[w]) {
      assert WorkerOk(s.db, w, s.workers[w]) && WorkerStored(s.db, s.workers[w]);
    }
    forall k | 0 <= k < |s.submits| ensures SubmitStored(s'.db, s'.submits[k]) {
      assert SubmitOk(s.db, k, s.submits[k]) && SubmitStored(s.db, s.submits[k]);
    }
    forall k | 0 <= k < |s.orphans| ensures OrphanOk(cfg, s'.db, s.orphans[k]) {
      assert OrphanOk(cfg, s.db, s.orphans[k]);
    }
    forall k | 0 <= k < |s.purges| ensures PurgeLate(cfg, s'.db, s.purges[k]) {
      assert PurgeLate(cfg, s.db, s.purges[k]);
    }
  }

  lemma SpoilRows(cfg: Config, s: State, s': State, i: nat, b: nat, j: nat)
    requires Inv(cfg, s) && RowsStored(cfg, s) && i < |s.submits| && s.submits[i].pc == Spoiling(b, j)
    requires j < |s.db.jobs| && s.db.jobs[j].input == b && s.db.jobs[j].decision == i
    requires s'.db == s.db.(bytes := s.db.bytes - {b})
    requires s'.submits == s.submits[i := s.submits[i].(pc := SubPc.Ended(Spoilt(j)))]
    ensures RowsStored(cfg, s')
  {
    hide Inv, RowStored;
    forall k | 0 <= k < |s.db.jobs| ensures RowStored(cfg, s'.db, s.db.jobs[k], SpoiltJob(s', k)) {
      SpoilRow(cfg, s, s', i, b, j, k);
    }
  }

  lemma SpoilRow(cfg: Config, s: State, s': State, i: nat, b: nat, j: nat, k: nat)
    requires Inv(cfg, s) && i < |s.submits| && s.submits[i].pc == Spoiling(b, j) && k < |s.db.jobs|
    requires RowStored(cfg, s.db, s.db.jobs[k], SpoiltJob(s, k))
    requires j < |s.db.jobs| && s.db.jobs[j].input == b && s.db.jobs[j].decision == i
    requires s'.db == s.db.(bytes := s.db.bytes - {b})
    requires s'.submits == s.submits[i := s.submits[i].(pc := SubPc.Ended(Spoilt(j)))]
    ensures RowStored(cfg, s'.db, s.db.jobs[k], SpoiltJob(s', k))
  {
    hide WorkersOk, TicketsOk, EnvelopesOk, SweepsOk, LapsedOk, QuotaOk, DebtsOk, KeysUnique, LedgerOk, NotesOk, BlobsOk, SubmitOk;
    assert RowOk(s.db.now, s.db.made, s.db.blobs, k, s.db.jobs[k]) && RowOk(s.db.now, s.db.made, s.db.blobs, j, s.db.jobs[j]);
    if k != j {
      assert MadeBySubmit(s, k) && MadeBySubmit(s, j);
      InputsDisjoint(cfg, s, j, k);
    }
  }

  lemma DropStored(cfg: Config, s: State, i: nat, b: nat, pc: SubPc)
    requires Inv(cfg, s) && BytesInv(cfg, s) && i < |s.submits| && Unlinked(s.db, b)
    requires !pc.Admitting? && !pc.Inserting? && SpoiltBy(pc) == SpoiltBy(s.submits[i].pc)
    ensures BytesInv(cfg, Move(s, i, DeleteBlob(s.db, b), pc))
  {
    DeleteGentle(cfg, s.db, b);
    SubmitMoveStored(cfg, s, i, DeleteBlob(s.db, b), pc);
  }

  lemma PersistStored(cfg: Config, s: State, i: nat)
    requires Inv(cfg, s) && BytesInv(cfg, s) && i < |s.submits| && s.submits[i].pc.Persisting?
    ensures BytesInv(cfg, Move(s, i, PersistBlob(s.db, Upload(i)), Admitting(|s.db.made|)))
  {
    PersistGentle(cfg, s.db, Upload(i));
    SubmitMoveStored(cfg, s, i, PersistBlob(s.db, Upload(i)), Admitting(|s.db.made|));
  }

  lemma AdmitStored(cfg: Config, s: State, i: nat, b: nat)
    requires Inv(cfg, s) && BytesInv(cfg, s) && i < |s.submits| && s.submits[i].pc == Admitting(b)
    ensures BytesInv(cfg, AdmitStep(cfg, s, i, b))
  {
    hide Consistent, WorkersOk, TicketsOk, EnvelopesOk, SweepsOk, LapsedOk, QuotaOk, DebtsOk;
    assert SubmitStored(s.db, s.submits[i]);
    SameGentle(cfg, s.db, s.db);
    if AdmitStep(cfg, s, i, b) != s {
      SubmitMoveStored(cfg, s, i, s.db, AdmitStep(cfg, s, i, b).submits[i].pc);
    }
  }

  /** The steps that hold no blob any more, or none yet. */
  lemma IdleStored(cfg: Config, s: State, i: nat, db': Db, pc: SubPc)
    requires Inv(cfg, s) && BytesInv(cfg, s) && i < |s.submits| && !pc.Admitting? && !pc.Inserting?
    requires db' == s.db.(allowed := db'.allowed, denied := db'.denied) && SpoiltBy(pc) == SpoiltBy(s.submits[i].pc)
    ensures BytesInv(cfg, Move(s, i, db', pc))
  {
    SameGentle(cfg, s.db, db');
    SubmitMoveStored(cfg, s, i, db', pc);
  }

  lemma SubmitStepStored(cfg: Config, s: State, i: nat, reuse: Option<nat>, ttl: nat, limited: bool)
    requires Inv(cfg, s) && BytesInv(cfg, s) && i < |s.submits| && Prompt(cfg, s, ASubmitStep(i, reuse, ttl, limited))
    ensures BytesInv(cfg, SubmitStep(cfg, s, i, reuse, ttl, limited))
  {
    hide BytesInv, Consistent, WorkersOk, TicketsOk, EnvelopesOk, SweepsOk, LapsedOk, QuotaOk, InsertStep, AdmitStep;
    var pc, s' := s.submits[i].pc, SubmitStep(cfg, s, i, reuse, ttl, limited);
    assert SubmitOk(s.db, i, s.submits[i]);
    if pc.Inserting? {
      InsertStored(cfg, s, i, pc.blob);
    } else if pc.Admitting? {
      AdmitStored(cfg, s, i, pc.blob);
    } else if pc.Persisting? {
      PersistStored(cfg, s, i);
    } else if pc.Dropping? || pc.DroppingRaced? {
      DropStored(cfg, s, i, pc.blob, s'.submits[i].pc);
    } else if pc.Spoiling? {
      SpoilStored(cfg, s, i, pc.blob, pc.job);
    } else {
      IdleShape(cfg, s, i, reuse, ttl, limited);
      if s' != s {
        IdleStored(cfg, s, i, s'.db, s'.submits[i].pc);
      }
    }
  }

  lemma IdleShape(cfg: Config, s: State, i: nat, reuse: Option<nat>, ttl: nat, limited: bool)
    requires i < |s.submits|
    requires var pc := s.submits[i].pc;
             !pc.Inserting? && !pc.Admitting? && !pc.Persisting? && !pc.Dropping? && !pc.DroppingRaced? && !pc.Spoiling?
    ensures var s' := SubmitStep(cfg, s, i, reuse, ttl, limited);
            s' == s || (&& |s'.submits| == |s.submits|
                        && s' == Move(s, i, s'.db, s'.submits[i].pc)
                        && s'.db == s.db.(allowed := s'.db.allowed, denied := s'.db.denied)
                        && !s'.submits[i].pc.Admitting? && !s'.submits[i].pc.Inserting?
                        && SpoiltBy(s'.submits[i].pc) == SpoiltBy(s.submits[i].pc))
  {
  }

  // ---- The theorems -----------------------------------------------------------------------------------

  /** Raising brings no worker nearer to a promotion. */
  lemma RaiseFrame(s: State, w: nat, kind: ErrorKind)
    requires w < |s.workers|
    ensures var s' := WorkerRaise(s, w, kind);
            && s'.db == s.db && s'.submits == s.submits && s'.orphans == s.orphans && s'.purges == s.purges && |s'.workers| == |s.workers|
            && (forall k :: 0 <= k < |s.workers| && k != w ==> s'.workers[k] == s.workers[k])
            && (s'.workers[w] == s.workers[w] || (!s'.workers[w].pc.AtPromote? && !s'.workers[w].pc.AtDone?))
  {
  }

  lemma RaiseStored(cfg: Config, s: State, w: nat, kind: ErrorKind)
    requires Inv(cfg, s) && BytesInv(cfg, s) && w < |s.workers|
    ensures BytesInv(cfg, WorkerRaise(s, w, kind))
  {
    RaiseFrame(s, w, kind);
    assert WorkerStored(s.db, s.workers[w]);
    CheckStored(cfg, s, w, WorkerRaise(s, w, kind));
  }

  lemma ArrivalStored(cfg: Config, s: State, a: Action)
    requires Inv(cfg, s) && BytesInv(cfg, s)
    requires a.ACrash? || a.ADeliver? || a.ASubmit?
    ensures BytesInv(cfg, Apply(cfg, s, a))
  {
    hide Inv;
    SameGentle(cfg, s.db, s.db);
    if a.ACrash? && a.w < |s.workers| {
      CheckStored(cfg, s, a.w, Goto(s, a.w, Gone));
    } else {
      GentleKeeps(cfg, s, Apply(cfg, s, a));
    }
  }

  lemma AbortStored(cfg: Config, s: State, a: Action)
    requires Inv(cfg, s) && BytesInv(cfg, s)
    requires (a.ASubmitFault? || a.ASubmitCrash?) && a.i < |s.submits|
    ensures BytesInv(cfg, Apply(cfg, s, a))
  {
    hide Inv, BytesInv;
    var s' := Apply(cfg, s, a);
    if s' != s {
      IdleStored(cfg, s, a.i, s.db, s'.submits[a.i].pc);
    }
  }

  /** Time, messages, cancel reads, snapshots and the outbox purge touch nothing the invariant mentions. */
  lemma BackgroundStored(cfg: Config, s: State, a: Action)
    requires Inv(cfg, s) && BytesInv(cfg, s) && Background(a)
    ensures BytesInv(cfg, Apply(cfg, s, a))
  {
    var s' := Apply(cfg, s, a);
    BackgroundFrame(cfg, s, a);
    SameGentle(cfg, s.db, s'.db);
    GentleKeeps(cfg, s, s');
  }

  predicate Background(a: Action) {
    || a.ATick? || a.ADispatch? || a.ALoseDispatch? || a.ARevoke? || a.ACancelRead?
    || a.APay? || a.ADefault? || a.AReapSnapshot? || a.AExpirySnapshot? || a.APurgeNote?
  }

  lemma BackgroundFrame(cfg: Config, s: State, a: Action)
    requires Background(a)
    ensures var s' := Apply(cfg, s, a);
            && s'.workers == s.workers && s'.submits == s.submits && s'.orphans == s.orphans && s'.purges == s.purges
            && s'.db.jobs == s.db.jobs && s.db.now <= s'.db.now && s'.db.made == s.db.made
            && s'.db.blobs == s.db.blobs && s'.db.bytes == s.db.bytes
  {
    hide Stale, MomentOf, Abandoned;
  }

  lemma GcSnapshotStored(cfg: Config, s: State, b: nat)
    requires BytesInv(cfg, s)
    ensures BytesInv(cfg, GcSnapshot(cfg, s, b))
  {
  }

  lemma PurgeSnapshotStored(cfg: Config, s: State, j: nat)
    requires BytesInv(cfg, s)
    ensures BytesInv(cfg, PurgeSnapshot(cfg, s, j))
  {
  }

  lemma SweepActionStored(cfg: Config, s: State, a: Action)
    requires Inv(cfg, s) && BytesInv(cfg, s)
    requires a.AExpiryAct? || a.APurgeAct? || a.AGcAct?
    ensures BytesInv(cfg, Apply(cfg, s, a))
  {
    hide Inv, BytesInv;
    if a.AExpiryAct? {
      ExpiryStored(cfg, s, a.i);
    } else if a.APurgeAct? {
      PurgeStored(cfg, s, a.i);
    } else {
      GcStored(cfg, s, a.i);
    }
  }

  lemma PromptKeeps(cfg: Config, s: State, a: Action)
    requires Inv(cfg, s) && BytesInv(cfg, s) && Prompt(cfg, s, a)
    ensures BytesInv(cfg, Apply(cfg, s, a))
  {
    hide Inv, BytesInv, WorkerStep, SubmitStep;
    if a.AWorker? {
      if a.w < |s.workers| { WorkerStepStored(cfg, s, a.w, a.oracle); }
    } else if a.ASubmitStep? {
      if a.i < |s.submits| { SubmitStepStored(cfg, s, a.i, a.reuse, a.ttl, a.limited); }
    } else if a.ACancelAct? {
      CancelStored(cfg, s, a.c);
    } else if a.AReapAct? {
      ReapStored(cfg, s, a.i);
    } else if a.AExpiryAct? || a.APurgeAct? || a.AGcAct? {
      SweepActionStored(cfg, s, a);
    } else if a.AGcSnapshot? {
      GcSnapshotStored(cfg, s, a.b);
    } else if a.APurgeSnapshot? {
      PurgeSnapshotStored(cfg, s, a.j);
    } else if a.ARaise? {
      if a.w < |s.workers| { RaiseStored(cfg, s, a.w, a.kind); }
    } else if a.ACrash? || a.ADeliver? || a.ASubmit? {
      ArrivalStored(cfg, s, a);
    } else if a.ASubmitFault? || a.ASubmitCrash? {
      if a.i < |s.submits| { AbortStored(cfg, s, a); }
    } else {
      BackgroundStored(cfg, s, a);
    }
  }

  lemma {:induction false} BytesSurvive(cfg: Config, run: seq<Action>)
    requires PromptRun(cfg, run)
    ensures BytesInv(cfg, Exec(cfg, START, run))
    decreases |run|
  {
    hide Apply;
    if run != [] {
      var before := run[..|run| - 1];
      BytesSurvive(cfg, before);
      Reachable(cfg, before);
      PromptKeeps(cfg, Exec(cfg, START, before), run[|run| - 1]);
    }
  }

  /**
   * After every prompt run, whatever the sweeps did: the output bytes of every DONE job are there;
   * the input bytes of a job that is unfinished, or finished less than the input retention ago,
   * are there exactly unless its own submission raised after the commit and discarded them.
   */
  lemma FilesAreThere(cfg: Config, run: seq<Action>, j: nat)
    requires PromptRun(cfg, run) && j < |Exec(cfg, START, run).db.jobs|
    ensures var s := Exec(cfg, START, run); var row := s.db.jobs[j];
            && (Retained(cfg, s.db.now, row) ==> (Stored(s.db, row.input) <==> !SpoiltJob(s, j)))
            && (row.status.Done? ==> row.output.Some? && Stored(s.db, row.output.value))
  {
    hide Apply;
    BytesSurvive(cfg, run);
    Reachable(cfg, run);
    var s := Exec(cfg, START, run);
    assert RowOk(s.db.now, s.db.made, s.db.blobs, j, s.db.jobs[j]) && RowStored(cfg, s.db, s.db.jobs[j], SpoiltJob(s, j));
  }

  // ---- Without a raising dispatch ---------------------------------------------------------------------

  /** No dispatch of a submission raises after the commit. */
  predicate Smooth(s: State, a: Action) {
    a.ASubmitFault? && a.i < |s.submits| ==> !s.submits[a.i].pc.Dispatching?
  }

  predicate SmoothRun(cfg: Config, run: seq<Action>)
    decreases |run|
  {
    run != [] ==>
      && SmoothRun(cfg, run[..|run| - 1])
      && Smooth(Exec(cfg, START, run[..|run| - 1]), run[|run| - 1])
  }

  predicate Unspoilt(submits: seq<Submit>) {
    forall i :: 0 <= i < |submits| ==> !submits[i].pc.Spoiling? && SpoiltBy(submits[i].pc).None?
  }

  lemma SubmitStaysUnspoilt(cfg: Config, s: State, i: nat, reuse: Option<nat>, ttl: nat, limited: bool)
    requires Unspoilt(s.submits) && i < |s.submits|
    ensures Unspoilt(SubmitStep(cfg, s, i, reuse, ttl, limited).submits)
  {
    var s' := SubmitStep(cfg, s, i, reuse, ttl, limited);
    assert s'.submits == s.submits || s'.submits == s.submits[i := s'.submits[i]];
    assert !s.submits[i].pc.Spoiling? && SpoiltBy(s.submits[i].pc).None?;
  }

  lemma SmoothKeeps(cfg: Config, s: State, a: Action)
    requires Unspoilt(s.submits) && Smooth(s, a)
    ensures Unspoilt(Apply(cfg, s, a).submits)
  {
    hide WorkerStep, SubmitStep;
    if a.AWorker? && a.w < |s.workers| {
      StepFrame(cfg, s, a.w, a.oracle);
    } else if a.ASubmitStep? && a.i < |s.submits| {
      SubmitStaysUnspoilt(cfg, s, a.i, a.reuse, a.ttl, a.limited);
    }
  }

  lemma {:induction false} SmoothRunsSpoilNothing(cfg: Config, run: seq<Action>)
    requires SmoothRun(cfg, run)
    ensures Unspoilt(Exec(cfg, START, run).submits)
    decreases |run|
  {
    hide Apply;
    if run != [] {
      SmoothRunsSpoilNothing(cfg, run[..|run| - 1]);
      SmoothKeeps(cfg, Exec(cfg, START, run[..|run| - 1]), run[|run| - 1]);
    }
  }

  /** If no dispatch raises, every file that is still needed is there. */
  lemma SmoothRunsKeepFiles(cfg: Config, run: seq<Action>, j: nat)
    requires PromptRun(cfg, run) && SmoothRun(cfg, run) && j < |Exec(cfg, START, run).db.jobs|
    ensures var s := Exec(cfg, START, run); var row := s.db.jobs[j];
            && (Retained(cfg, s.db.now, row) ==> Stored(s.db, row.input))
            && (row.status.Done? ==> row.output.Some? && Stored(s.db, row.output.value))
  {
    hide Apply;
    FilesAreThere(cfg, run, j);
    SmoothRunsSpoilNothing(cfg, run);
  }

  // ---- Late references --------------------------------------------------------------------------------

  predicate DeliveredEmpty(db: Db, j: nat) {
    j < |db.jobs| && db.jobs[j].status.Done? && db.jobs[j].output.None?
  }

  /** An upload or output nobody references is collectable exactly when the window has passed. */
  lemma CollectableIffLate(cfg: Config, db: Db, b: nat)
    requires b in db.blobs && b < |db.made| && Unlinked(db, b)
    ensures Collectable(cfg, db, b) <==> db.now > db.made[b].at + cfg.gcWindow
  {
  }

  /** The collector looks, the worker promotes, the collector acts, the worker concludes. */
  function PromoteAmidCollection(cfg: Config, s: State, w: nat, b: nat, ttl: nat): State
    requires w < |s.workers|
  {
    var seen := GcSnapshot(cfg, s, b);
    var collected := GcAct(PromoteStep(seen, w, b), |s.orphans|);
    ConcludeStep(collected, w, Done, Some(100), ttl, false)
  }

  /**
   * The assumption is exact for promotions: a pass of the collector around a promotion leaves the
   * job DONE, and billed, without output if and only if the promotion is late.
   */
  lemma PromotionKeptIffPrompt(cfg: Config, s: State, w: nat, b: nat, ttl: nat)
    requires Inv(cfg, s) && w < |s.workers| && s.workers[w].pc == AtPromote(b) && b in s.db.blobs && ttl > 0
    requires PromoteOutput(s.db, s.workers[w].job, s.workers[w].generation, b).1
    ensures var j := s.workers[w].job; var db := PromoteAmidCollection(cfg, s, w, b, ttl).db;
            && j < |db.jobs| && db.jobs[j].status.Done?
            && (db.jobs[j].output == if s.db.now > s.db.made[b].at + cfg.gcWindow then None else Some(b))
  {
    var j := s.workers[w].job;
    assert WorkerOk(s.db, w, s.workers[w]);
    CollectableIffLate(cfg, s.db, b);
    var seen := GcSnapshot(cfg, s, b);
    var promoted := PromoteStep(seen, w, b);
    assert promoted.db == PromoteOutput(s.db, j, s.workers[w].generation, b).0 && promoted.orphans == seen.orphans;
    forall k | 0 <= k < |s.db.jobs| ensures promoted.db.jobs[k].input != b {
      assert RowOk(s.db.now, s.db.made, s.db.blobs, k, s.db.jobs[k]);
    }
    CollectedRow(promoted.db, b, j);
    var collected := GcAct(promoted, |s.orphans|);
    EmptyDelivery(collected.db, j, s.workers[w].generation, ttl);
  }

  lemma CollectedRow(db: Db, b: nat, j: nat)
    requires j < |db.jobs| && !InputOf(db, b)
    ensures |DeleteBlob(db, b).jobs| == |db.jobs| && DeleteBlob(db, b).jobs[j] == Forget(db.jobs[j], b)
  {
  }

  lemma EmptyDelivery(db: Db, j: nat, g: nat, ttl: nat)
    requires Fence(db, j, g) && ttl > 0
    ensures var db' := TerminalTransition(db, j, g, Done, Some(100), ttl).0;
            j < |db'.jobs| && db'.jobs[j].status.Done? && db'.jobs[j].output == db.jobs[j].output
  {
  }

  /** The collector looks, the job is inserted, the collector acts. */
  function InsertAmidCollection(cfg: Config, s: State, i: nat, b: nat): State
    requires i < |s.submits|
  {
    GcAct(InsertStep(GcSnapshot(cfg, s, b), i, b), |s.orphans|)
  }

  /**
   * And for inserts: a pass of the collector around the insert takes the stored input bytes from the
   * PENDING job if and only if the insert is late. The row of the upload is protected either way.
   */
  lemma InsertKeptIffPrompt(cfg: Config, s: State, i: nat, b: nat)
    requires Inv(cfg, s) && i < |s.submits| && s.submits[i].pc == Inserting(b) && b in s.db.blobs
    requires FindJob(s.db.jobs, s.submits[i].request).None?
    ensures var db, j := InsertAmidCollection(cfg, s, i, b).db, |s.db.jobs|;
            && j < |db.jobs| && db.jobs[j].status.Pending? && db.jobs[j].input == b && b in db.blobs
            && (b in db.bytes <==> b in s.db.bytes && s.db.now <= s.db.made[b].at + cfg.gcWindow)
  {
    assert SubmitOk(s.db, i, s.submits[i]);
    CollectableIffLate(cfg, s.db, b);
    var inserted := InsertStep(GcSnapshot(cfg, s, b), i, b);
    assert inserted.db.jobs[|s.db.jobs|].input == b;
    ProtectedDelete(inserted.db, b, |s.db.jobs|);
  }
}
