/**
 * What every committed write keeps, whoever makes it: the table invariant `Consistent`, and the
 * two-state relation `Evolves` that other processes may rely on between their own writes.
 */
module DatabaseInvariant {
  import opened Common
  import opened Jobs
  import opened Database

  // ---- Ledger sums ------------------------------------------------------------------------------

  function Total(ledger: seq<Charge>): nat {
    if ledger == [] then 0 else Total(ledger[..|ledger| - 1]) + ledger[|ledger| - 1].quantity
  }

  function Bill(row: Job): nat {
    if row.status.Billed() then row.request.size else 0
  }

  /** The input bytes of all jobs that were delivered. */
  function BilledBytes(jobs: seq<Job>): nat {
    if jobs == [] then 0 else BilledBytes(jobs[..|jobs| - 1]) + Bill(jobs[|jobs| - 1])
  }

  lemma {:induction false} BilledBytesPut(jobs: seq<Job>, j: nat, row: Job)
    requires j < |jobs|
    ensures BilledBytes(jobs[j := row]) == BilledBytes(jobs) - Bill(jobs[j]) + Bill(row)
  {
    var n := |jobs| - 1;
    if j < n {
      assert jobs[j := row][..n] == jobs[..n][j := row];
      BilledBytesPut(jobs[..n], j, row);
    } else {
      assert jobs[j := row][..n] == jobs[..n];
    }
  }

  lemma {:induction false} BilledBytesSame(a: seq<Job>, b: seq<Job>)
    requires |a| == |b| && forall j :: 0 <= j < |a| ==> Bill(a[j]) == Bill(b[j])
    ensures BilledBytes(a) == BilledBytes(b)
  {
    if a != [] {
      BilledBytesSame(a[..|a| - 1], b[..|b| - 1]);
    }
  }

  /** Writes that make no job active can only free quota. */
  lemma {:induction false} ActiveJobsShrink(a: seq<Job>, b: seq<Job>, workspace: nat)
    requires |a| == |b|
    requires forall j :: 0 <= j < |a| ==> b[j].request == a[j].request && (b[j].status.Active() ==> a[j].status.Active())
    ensures ActiveJobs(b, workspace) <= ActiveJobs(a, workspace)
  {
    if a != [] {
      ActiveJobsShrink(a[..|a| - 1], b[..|b| - 1], workspace);
    }
  }

  // ---- The table invariant ------------------------------------------------------------------------

  predicate RowOk(now: nat, made: seq<Made>, blobs: map<nat, Blob>, j: nat, row: Job) {
    && row.attempts == row.generation
    && (row.status.Pending? ==> row.generation == 0)
    && (row.status.Processing? ==> row.generation > 0 && row.heartbeat.Some?)
    && (row.worker.Some? <==> row.generation > 0)
    && (row.heartbeat.Some? ==> row.heartbeat.value <= now)
    && (row.finishedAt.Some? <==> row.status.Terminal())
    && (row.status.Billed() ==> row.expiresAt.Some? && row.generation > 0)
    && row.percent <= 100
    && InputOk(made, blobs, row)
    && OutputOk(made, blobs, j, row)
  }

  predicate InputOk(made: seq<Made>, blobs: map<nat, Blob>, row: Job) {
    row.input < |made| && row.input in blobs && made[row.input].maker == Upload(row.decision)
  }

  predicate OutputOk(made: seq<Made>, blobs: map<nat, Blob>, j: nat, row: Job) {
    match row.output
    case None => true
    case Some(b) =>
      && b < |made| && b in blobs
      && made[b].maker.Conversion? && made[b].maker.job == j
      && made[b].maker.generation <= row.generation
      && !row.status.Expired?
      && (row.status.Done? ==> OwnOutput(made, j, row, b))
  }

  /** Blob `b` was written by the worker that holds the row's current generation. */
  predicate OwnOutput(made: seq<Made>, j: nat, row: Job, b: nat) {
    && b < |made| && row.worker.Some?
    && made[b].maker == Conversion(j, row.generation, row.worker.value)
  }

  ghost predicate RowsOk(now: nat, made: seq<Made>, blobs: map<nat, Blob>, jobs: seq<Job>) {
    forall j :: 0 <= j < |jobs| ==> RowOk(now, made, blobs, j, jobs[j])
  }

  /** Ledger rows for the job, of its input size. */
  function Charges(ledger: seq<Charge>, j: nat, row: Job): nat {
    multiset(ledger)[Charge(j, row.request.size)]
  }

  /** One ledger row of the input size for a delivered job, no ledger row for any other job. */
  ghost predicate LedgerOk(jobs: seq<Job>, ledger: seq<Charge>) {
    && (forall j :: 0 <= j < |jobs| ==> Charges(ledger, j, jobs[j]) == (if jobs[j].status.Billed() then 1 else 0))
    && (forall c :: c in ledger ==> c.job < |jobs| && c.quantity == jobs[c.job].request.size)
    && Total(ledger) == BilledBytes(jobs)
  }

  /** How often an outbox row with this key was created. */
  function Times(announced: seq<Note>, j: nat, kind: NoteKind): nat {
    multiset(announced)[Note(j, kind)]
  }

  predicate NotesOfRow(announced: seq<Note>, j: nat, status: Status) {
    && Times(announced, j, NoteDone) == (if status.Billed() then 1 else 0)
    && Times(announced, j, NoteFailed) == (if status.Failed? then 1 else 0)
    && (Times(announced, j, NoteCancelled) > 0 ==> status.Cancelled?)
    && (Times(announced, j, NoteDeadLetter) > 0 ==> status.Failed?)
  }

  ghost predicate NotesOk(jobs: seq<Job>, announced: seq<Note>, notes: set<Note>) {
    && (forall j :: 0 <= j < |jobs| ==> NotesOfRow(announced, j, jobs[j].status))
    && (forall n :: n in announced ==> n.job < |jobs|)
    && (forall n :: n in notes ==> n in announced)
  }

  ghost predicate KeysUnique(jobs: seq<Job>) {
    forall i, j :: 0 <= i < j < |jobs| ==> !jobs[i].request.SameKey(jobs[j].request)
  }

  ghost predicate BlobsOk(db: Db) {
    forall b :: b in db.blobs || b in db.bytes ==> b < |db.made|
  }

  ghost predicate Consistent(db: Db) {
    && RowsOk(db.now, db.made, db.blobs, db.jobs)
    && LedgerOk(db.jobs, db.ledger)
    && NotesOk(db.jobs, db.announced, db.notes)
    && KeysUnique(db.jobs)
    && BlobsOk(db)
  }

  // ---- The step relation ----------------------------------------------------------------------------

  ghost predicate RowsStep(now: nat, made: seq<Made>, a: seq<Job>, b: seq<Job>, link: Option<nat>) {
    && |a| <= |b|
    && (forall j :: 0 <= j < |a| ==> RowStep(now, a[j], b[j]))
    && (forall j :: 0 <= j < |a| ==> PointerStep(made, j, a[j], b[j], link))
    && (forall j :: |a| <= j < |b| ==> Some(b[j].input) == link && b[j].output.None?)
  }

  /** Only the holder of the current claim links an output, and it links its own blob. */
  predicate PointerStep(made: seq<Made>, j: nat, r: Job, r': Job, link: Option<nat>) {
    || r'.output == r.output
    || r'.output.None?
    || (r'.output == link && OwnOutput(made, j, r', link.value))
  }

  /** A write at time `db.now` after which the only new reference to a blob is to `link`. */
  ghost predicate Evolves(db: Db, db': Db, link: Option<nat>) {
    && db'.now == db.now
    && db.made <= db'.made
    && RowsStep(db.now, db'.made, db.jobs, db'.jobs, link)
  }

  lemma UnlinkedStays(db: Db, db': Db, link: Option<nat>, b: nat)
    requires Evolves(db, db', link) && Unlinked(db, b) && link != Some(b)
    ensures Unlinked(db', b)
  {
    forall j | 0 <= j < |db'.jobs| ensures db'.jobs[j].input != b && db'.jobs[j].output != Some(b) {
      if j < |db.jobs| {
        assert RowStep(db.now, db.jobs[j], db'.jobs[j]);
      }
    }
  }

  // ---- Frame lemmas, table by table -------------------------------------------------------------------

  lemma KeysPut(jobs: seq<Job>, j: nat, row: Job)
    requires KeysUnique(jobs) && j < |jobs| && row.request == jobs[j].request
    ensures KeysUnique(jobs[j := row])
  {
  }

  lemma LedgerPut(jobs: seq<Job>, ledger: seq<Charge>, j: nat, row: Job)
    requires LedgerOk(jobs, ledger) && j < |jobs|
    requires row.request == jobs[j].request && row.status.Billed() == jobs[j].status.Billed()
    ensures LedgerOk(jobs[j := row], ledger)
  {
    BilledBytesPut(jobs, j, row);
  }

  lemma LedgerCharge(jobs: seq<Job>, ledger: seq<Charge>, j: nat, row: Job)
    requires LedgerOk(jobs, ledger) && j < |jobs|
    requires row.request == jobs[j].request && row.status.Billed() && !jobs[j].status.Billed()
    ensures LedgerOk(jobs[j := row], ledger + [Charge(j, row.request.size)])
  {
    BilledBytesPut(jobs, j, row);
  }

  /** Before the end nothing was announced, so `get_or_create` always creates. */
  lemma Unannounced(db: Db, j: nat, kind: NoteKind)
    requires Consistent(db) && j < |db.jobs| && !db.jobs[j].status.Terminal()
    ensures Times(db.announced, j, kind) == 0 && Note(j, kind) !in db.notes
  {
    assert NotesOfRow(db.announced, j, db.jobs[j].status);
    assert Note(j, kind) !in multiset(db.announced);
  }

  lemma NotesPut(jobs: seq<Job>, announced: seq<Note>, notes: set<Note>, j: nat, row: Job, extra: seq<Note>)
    requires NotesOk(jobs, announced, notes) && j < |jobs|
    requires forall n :: n in extra ==> n.job == j
    requires NotesOfRow(announced + extra, j, row.status)
    ensures NotesOk(jobs[j := row], announced + extra, notes + set n | n in extra)
  {
    forall k | 0 <= k < |jobs| && k != j ensures NotesOfRow(announced + extra, k, jobs[k].status) {
      assert NotesOfRow(announced, k, jobs[k].status);
      forall kind: NoteKind ensures Times(announced + extra, k, kind) == Times(announced, k, kind) {
        assert Note(k, kind) !in multiset(extra);
      }
    }
  }

  lemma RowsStepPut(now: nat, made: seq<Made>, jobs: seq<Job>, j: nat, row: Job, link: Option<nat>)
    requires j < |jobs| && RowStep(now, jobs[j], row)
    requires PointerStep(made, j, jobs[j], row, link)
    ensures RowsStep(now, made, jobs, jobs[j := row], link)
  {
    forall k | 0 <= k < |jobs| && k != j ensures RowStep(now, jobs[k], jobs[k]) {
    }
  }

  /** A write to row `j` that changes no other table but the event log. */
  lemma PutKeeps(db: Db, j: nat, row: Job, link: Option<nat>)
    requires Consistent(db) && j < |db.jobs|
    requires RowStep(db.now, db.jobs[j], row)
    requires PointerStep(db.made, j, db.jobs[j], row, link)
    requires RowOk(db.now, db.made, db.blobs, j, row)
    requires row.status.Billed() == db.jobs[j].status.Billed()
    requires NotesOfRow(db.announced, j, row.status)
    ensures Consistent(Put(db, j, row)) && Evolves(db, Put(db, j, row), link)
  {
    RowsStepPut(db.now, db.made, db.jobs, j, row, link);
    KeysPut(db.jobs, j, row);
    LedgerPut(db.jobs, db.ledger, j, row);
    NotesPut(db.jobs, db.announced, db.notes, j, row, []);
    assert db.announced + [] == db.announced && db.notes + {} == db.notes;
  }

  // ---- Every operation keeps the invariant --------------------------------------------------------

  /** A write to row `j` that ends the job, with the outbox rows `extra` and possibly the ledger row. */
  lemma EndKeeps(db: Db, j: nat, row: Job, extra: seq<Note>, ledger: seq<Charge>, db': Db)
    requires Consistent(db) && j < |db.jobs|
    requires RowStep(db.now, db.jobs[j], row) && !db.jobs[j].status.Terminal()
    requires row.output == db.jobs[j].output
    requires RowOk(db.now, db.made, db.blobs, j, row)
    requires forall n :: n in extra ==> n.job == j
    requires NotesOfRow(extra, j, row.status)
    requires ledger == if row.status.Billed() then [Charge(j, row.request.size)] else []
    requires db'.now == db.now && db'.made == db.made && db'.blobs == db.blobs && db'.bytes == db.bytes
    requires db'.jobs == db.jobs[j := row] && db'.ledger == db.ledger + ledger
    requires db'.announced == db.announced + extra && db'.notes == db.notes + set n | n in extra
    ensures Consistent(db') && Evolves(db, db', None)
  {
    RowsStepPut(db.now, db.made, db.jobs, j, row, None);
    KeysPut(db.jobs, j, row);
    if row.status.Billed() {
      LedgerCharge(db.jobs, db.ledger, j, row);
    } else {
      LedgerPut(db.jobs, db.ledger, j, row);
      assert db.ledger + [] == db.ledger;
    }
    forall kind: NoteKind ensures Times(db'.announced, j, kind) == Times(extra, j, kind) {
      Unannounced(db, j, kind);
    }
    assert NotesOfRow(db'.announced, j, row.status);
    NotesPut(db.jobs, db.announced, db.notes, j, row, extra);
  }

  lemma ImmediateCancelKeeps(db: Db, j: nat)
    requires Consistent(db) && j < |db.jobs|
    ensures Consistent(ImmediateCancel(db, j)) && Evolves(db, ImmediateCancel(db, j), None)
  {
    if db.jobs[j].status.Waiting() {
      var db' := ImmediateCancel(db, j);
      Unannounced(db, j, NoteCancelled);
      assert RowOk(db.now, db.made, db.blobs, j, db.jobs[j]);
      EndKeeps(db, j, db'.jobs[j], [Note(j, NoteCancelled)], [], db');
    } else {
      StutterKeeps(db);
    }
  }

  lemma StutterKeeps(db: Db)
    ensures Evolves(db, db, None)
  {
    forall k | 0 <= k < |db.jobs| ensures RowStep(db.now, db.jobs[k], db.jobs[k]) {
    }
  }

  lemma ClaimJobKeeps(db: Db, j: nat, w: nat)
    requires Consistent(db)
    ensures Consistent(ClaimJob(db, j, w).0) && Evolves(db, ClaimJob(db, j, w).0, None)
  {
    if j < |db.jobs| && db.jobs[j].cancelRequested {
      ImmediateCancelKeeps(db, j);
    } else if Claimable(db, j) {
      assert RowOk(db.now, db.made, db.blobs, j, db.jobs[j]);
      assert NotesOfRow(db.announced, j, db.jobs[j].status);
      PutKeeps(db, j, ClaimJob(db, j, w).0.jobs[j], None);
    } else {
      StutterKeeps(db);
    }
  }

  lemma CancelWaitingKeeps(db: Db, j: nat)
    requires Consistent(db) && j < |db.jobs|
    ensures Consistent(CancelWaiting(db, j)) && Evolves(db, CancelWaiting(db, j), None)
  {
    StutterKeeps(db);
    if db.jobs[j].status.Waiting() {
      assert RowOk(db.now, db.made, db.blobs, j, db.jobs[j]);
      assert NotesOfRow(db.announced, j, db.jobs[j].status);
      PutKeeps(db, j, CancelWaiting(db, j).jobs[j], None);
    }
  }

  /** The late outbox row of a cancelled job. */
  lemma LateKeyKeeps(db: Db, j: nat)
    requires Consistent(db) && j < |db.jobs| && db.jobs[j].status.Cancelled?
    ensures var db' := Enqueue(db, Note(j, NoteCancelled)); Consistent(db') && Evolves(db, db', None)
  {
    StutterKeeps(db);
    var extra := if Note(j, NoteCancelled) in db.notes then [] else [Note(j, NoteCancelled)];
    assert NotesOfRow(db.announced, j, db.jobs[j].status);
    assert db.announced + [] == db.announced && db.notes + {} == db.notes;
    NotesPut(db.jobs, db.announced, db.notes, j, db.jobs[j], extra);
    assert db.jobs[j := db.jobs[j]] == db.jobs;
  }

  lemma SetCancelFlagKeeps(db: Db, j: nat)
    requires Consistent(db) && j < |db.jobs|
    ensures Consistent(SetCancelFlag(db, j)) && Evolves(db, SetCancelFlag(db, j), None)
  {
    assert RowOk(db.now, db.made, db.blobs, j, db.jobs[j]);
    assert NotesOfRow(db.announced, j, db.jobs[j].status);
    StutterKeeps(db);
    PutKeeps(db, j, db.jobs[j].(cancelRequested := true), None);
  }

  lemma HeartbeatKeeps(db: Db, j: nat, g: nat)
    requires Consistent(db)
    ensures Consistent(Heartbeat(db, j, g)) && Evolves(db, Heartbeat(db, j, g), None)
  {
    StutterKeeps(db);
    if Fence(db, j, g) {
      assert RowOk(db.now, db.made, db.blobs, j, db.jobs[j]);
      assert NotesOfRow(db.announced, j, db.jobs[j].status);
      PutKeeps(db, j, Heartbeat(db, j, g).jobs[j], None);
    }
  }

  lemma ProgressKeeps(db: Db, j: nat, g: nat, percent: nat)
    requires Consistent(db) && percent <= 100
    ensures Consistent(Progress(db, j, g, percent)) && Evolves(db, Progress(db, j, g, percent), None)
  {
    StutterKeeps(db);
    if Fence(db, j, g) {
      assert RowOk(db.now, db.made, db.blobs, j, db.jobs[j]);
      assert NotesOfRow(db.announced, j, db.jobs[j].status);
      PutKeeps(db, j, Progress(db, j, g, percent).jobs[j], None);
    }
  }

  lemma PersistBlobKeeps(db: Db, maker: Maker)
    requires Consistent(db)
    ensures Consistent(PersistBlob(db, maker)) && Evolves(db, PersistBlob(db, maker), None)
    ensures Unlinked(PersistBlob(db, maker), |db.made|)
  {
    var db' := PersistBlob(db, maker);
    StutterKeeps(db);
    forall k | 0 <= k < |db.jobs|
      ensures RowOk(db.now, db'.made, db'.blobs, k, db.jobs[k])
      ensures db.jobs[k].input != |db.made| && db.jobs[k].output != Some(|db.made|)
    {
      assert RowOk(db.now, db.made, db.blobs, k, db.jobs[k]);
    }
  }

  /** Promotion: `b` must be a blob of this job made under generation `g`. */
  lemma PromoteOutputKeeps(db: Db, j: nat, g: nat, b: nat, w: nat)
    requires Consistent(db)
    requires b < |db.made| && db.made[b].maker == Conversion(j, g, w) && b in db.blobs
    requires Fence(db, j, g) ==> db.jobs[j].worker == Some(w)
    ensures var db' := PromoteOutput(db, j, g, b).0; Consistent(db') && Evolves(db, db', Some(b))
  {
    StutterKeeps(db);
    if PromoteOutput(db, j, g, b).1 {
      var row := PromoteOutput(db, j, g, b).0.jobs[j];
      assert RowOk(db.now, db.made, db.blobs, j, db.jobs[j]);
      assert NotesOfRow(db.announced, j, db.jobs[j].status);
      PutKeeps(db, j, row, Some(b));
    }
  }

  lemma RetryTransitionKeeps(db: Db, j: nat, g: nat)
    requires Consistent(db)
    ensures var db' := RetryTransition(db, j, g, false).0; Consistent(db') && Evolves(db, db', None)
  {
    StutterKeeps(db);
    if RetryTransition(db, j, g, false).1 {
      assert RowOk(db.now, db.made, db.blobs, j, db.jobs[j]);
      assert NotesOfRow(db.announced, j, db.jobs[j].status);
      PutKeeps(db, j, RetryTransition(db, j, g, false).0.jobs[j], None);
    }
  }

  /** The verdict DONE needs the row's pointer, if any, to be the acting worker's own blob. */
  predicate MayConclude(db: Db, j: nat, status: Status)
    requires j < |db.jobs|
  {
    status.Done? && db.jobs[j].output.Some? ==> OwnOutput(db.made, j, db.jobs[j], db.jobs[j].output.value)
  }

  lemma ConcludeWrites(db: Db, j: nat, status: Status, percent: Option<nat>, ttl: nat)
    requires Verdict(status) && j < |db.jobs| && Note(j, NoteOf(status)) !in db.notes
    ensures var db' := Conclude(db, j, status, percent, ttl);
            var row := Verdicted(db.now, db.jobs[j], status, percent, ttl);
            && db'.now == db.now && db'.made == db.made && db'.blobs == db.blobs && db'.bytes == db.bytes
            && db'.jobs == db.jobs[j := row]
            && db'.ledger == db.ledger + (if status.Done? then [Charge(j, row.request.size)] else [])
            && db'.announced == db.announced + [Note(j, NoteOf(status))]
            && db'.notes == db.notes + set n | n in [Note(j, NoteOf(status))]
  {
    assert db.ledger + [] == db.ledger;
  }

  lemma ConcludeKeeps(db: Db, j: nat, status: Status, percent: Option<nat>, ttl: nat)
    requires Consistent(db) && Verdict(status)
    requires percent.Some? ==> percent.value <= 100
    requires j < |db.jobs| && db.jobs[j].status.Processing? && MayConclude(db, j, status)
    ensures var db' := Conclude(db, j, status, percent, ttl); Consistent(db') && Evolves(db, db', None)
  {
    var row := Verdicted(db.now, db.jobs[j], status, percent, ttl);
    Unannounced(db, j, NoteOf(status));
    assert RowOk(db.now, db.made, db.blobs, j, db.jobs[j]);
    ConcludeWrites(db, j, status, percent, ttl);
    var charges := if status.Done? then [Charge(j, row.request.size)] else [];
    EndKeeps(db, j, row, [Note(j, NoteOf(status))], charges, Conclude(db, j, status, percent, ttl));
  }

  lemma ShredKeeps(db: Db, b: nat)
    requires Consistent(db)
    ensures Consistent(Shred(db, b)) && Evolves(db, Shred(db, b), None)
  {
    StutterKeeps(db);
    var db' := Shred(db, b);
    assert db'.blobs.Keys == db.blobs.Keys;
    forall k | 0 <= k < |db.jobs| ensures RowOk(db.now, db.made, db'.blobs, k, db.jobs[k]) {
      assert RowOk(db.now, db.made, db.blobs, k, db.jobs[k]);
    }
  }

  lemma RetireKeeps(db: Db, j: nat, blob: Option<nat>)
    requires Consistent(db) && j < |db.jobs| && db.jobs[j].status.Done?
    ensures Consistent(Retire(db, j, blob)) && Evolves(db, Retire(db, j, blob), None)
  {
    var row := db.jobs[j].(status := Expired, output := None);
    assert NotesOfRow(db.announced, j, db.jobs[j].status);
    assert RowOk(db.now, db.made, db.blobs, j, db.jobs[j]);
    PutKeeps(db, j, row, None);
    if blob.Some? {
      ShredKeeps(Put(db, j, row), blob.value);
    }
  }

  lemma OneRowMoves(db: Db, j: nat, g: nat, status: Status, percent: Option<nat>, ttl: nat)
    requires Verdict(status)
    ensures var db' := TerminalTransition(db, j, g, status, percent, ttl).0;
            |db'.jobs| == |db.jobs| && (forall k :: 0 <= k < |db.jobs| && k != j ==> db'.jobs[k] == db.jobs[k])
  {
  }

  /** With a zero retention the two writes of one transaction are one move, PROCESSING to EXPIRED. */
  lemma ExpiresAtOnce(db: Db, j: nat, percent: Option<nat>, ttl: nat)
    requires j < |db.jobs| && db.jobs[j].status.Processing?
    ensures var ended := Conclude(db, j, Done, percent, ttl);
            var db' := Retire(ended, j, ended.jobs[j].output);
            Evolves(db, db', None)
  {
    var ended := Conclude(db, j, Done, percent, ttl);
    var db' := Retire(ended, j, ended.jobs[j].output);
    assert db'.jobs == db.jobs[j := db'.jobs[j]];
    RowsStepPut(db.now, db.made, db.jobs, j, db'.jobs[j], None);
  }

  lemma TerminalTransitionKeeps(db: Db, j: nat, g: nat, status: Status, percent: Option<nat>, ttl: nat)
    requires Consistent(db) && Verdict(status)
    requires percent.Some? ==> percent.value <= 100
    requires Fence(db, j, g) ==> MayConclude(db, j, status)
    ensures var db' := TerminalTransition(db, j, g, status, percent, ttl).0;
            && Consistent(db') && Evolves(db, db', None)
            && |db'.jobs| == |db.jobs| && (forall k :: 0 <= k < |db.jobs| && k != j ==> db'.jobs[k] == db.jobs[k])
  {
    hide Consistent, Evolves, Retire;
    OneRowMoves(db, j, g, status, percent, ttl);
    if !Fence(db, j, g) {
      StutterKeeps(db);
    } else {
      ConcludeKeeps(db, j, status, percent, ttl);
      if status.Done? && ttl == 0 {
        var ended := Conclude(db, j, status, percent, ttl);
        RetireKeeps(ended, j, ended.jobs[j].output);
        ExpiresAtOnce(db, j, percent, ttl);
      }
    }
  }

  lemma EmitDeadLetterKeeps(db: Db, j: nat)
    requires Consistent(db) && j < |db.jobs| && db.jobs[j].status.Failed?
    ensures Consistent(EmitDeadLetter(db, j)) && Evolves(db, EmitDeadLetter(db, j), None)
  {
    StutterKeeps(db);
    var extra := if Note(j, NoteDeadLetter) in db.notes then [] else [Note(j, NoteDeadLetter)];
    assert NotesOfRow(db.announced, j, db.jobs[j].status);
    assert db.announced + [] == db.announced && db.notes + {} == db.notes;
    NotesPut(db.jobs, db.announced, db.notes, j, db.jobs[j], extra);
    assert db.jobs[j := db.jobs[j]] == db.jobs;
  }

  lemma ExpireOutputKeeps(db: Db, j: nat, blob: Option<nat>, cutoff: nat)
    requires Consistent(db)
    ensures Consistent(ExpireOutput(db, j, blob, cutoff)) && Evolves(db, ExpireOutput(db, j, blob, cutoff), None)
  {
    StutterKeeps(db);
    if j < |db.jobs| && db.jobs[j].status.Done? {
      RetireKeeps(db, j, blob);
    }
  }

  lemma ReapCancelKeeps(db: Db, j: nat)
    requires Consistent(db)
    ensures Consistent(ReapCancel(db, j)) && Evolves(db, ReapCancel(db, j), None)
  {
    StutterKeeps(db);
    if j < |db.jobs| && db.jobs[j].status.Processing? && db.jobs[j].cancelRequested {
      assert RowOk(db.now, db.made, db.blobs, j, db.jobs[j]);
      assert NotesOfRow(db.announced, j, db.jobs[j].status);
      PutKeeps(db, j, ReapCancel(db, j).jobs[j], None);
    }
  }

  lemma ReapFailWrites(db: Db, j: nat, threshold: int)
    requires Abandoned(db, j, threshold)
    requires Note(j, NoteFailed) !in db.notes && Note(j, NoteDeadLetter) !in db.notes
    ensures var db' := ReapFail(db, j, threshold);
            var notes := [Note(j, NoteFailed), Note(j, NoteDeadLetter)];
            && db'.announced == db.announced + notes
            && db'.notes == db.notes + set n | n in notes
  {
  }

  lemma ReapFailKeeps(db: Db, j: nat, threshold: int)
    requires Consistent(db) && Abandoned(db, j, threshold)
    ensures Consistent(ReapFail(db, j, threshold)) && Evolves(db, ReapFail(db, j, threshold), None)
  {
    assert RowOk(db.now, db.made, db.blobs, j, db.jobs[j]);
    Unannounced(db, j, NoteFailed);
    Unannounced(db, j, NoteDeadLetter);
    ReapFailWrites(db, j, threshold);
    assert db.ledger + [] == db.ledger;
    var db' := ReapFail(db, j, threshold);
    EndKeeps(db, j, db'.jobs[j], [Note(j, NoteFailed), Note(j, NoteDeadLetter)], [], db');
  }

  lemma ReapRequeueKeeps(db: Db, j: nat, threshold: int)
    requires Consistent(db) && Abandoned(db, j, threshold)
    ensures var db' := ReapRequeue(db, j, threshold).0; Consistent(db') && Evolves(db, db', None)
  {
    assert RowOk(db.now, db.made, db.blobs, j, db.jobs[j]);
    assert NotesOfRow(db.announced, j, db.jobs[j].status);
    PutKeeps(db, j, db.jobs[j].(status := Retrying), None);
  }

  lemma ReapKeeps(cfg: Config, db: Db, item: ReapItem)
    requires Consistent(db)
    ensures Consistent(Reap(cfg, db, item).0) && Evolves(db, Reap(cfg, db, item).0, None)
  {
    if item.flagged {
      ReapCancelKeeps(db, item.job);
    } else if !Abandoned(db, item.job, item.threshold) {
      StutterKeeps(db);
    } else if item.attempts >= cfg.maxAttempts {
      ReapFailKeeps(db, item.job, item.threshold);
    } else {
      ReapRequeueKeeps(db, item.job, item.threshold);
    }
  }

  lemma ForgetRows(db: Db, b: nat, jobs: seq<Job>)
    requires Consistent(db) && !InputOf(db, b)
    requires |jobs| == |db.jobs| && forall j :: 0 <= j < |jobs| ==> jobs[j] == Forget(db.jobs[j], b)
    ensures RowsOk(db.now, db.made, db.blobs - {b}, jobs)
    ensures RowsStep(db.now, db.made, db.jobs, jobs, None)
  {
    forall k | 0 <= k < |jobs|
      ensures RowOk(db.now, db.made, db.blobs - {b}, k, jobs[k]) && RowStep(db.now, db.jobs[k], jobs[k])
    {
      assert RowOk(db.now, db.made, db.blobs, k, db.jobs[k]);
    }
  }

  lemma ForgetBooks(db: Db, b: nat, jobs: seq<Job>)
    requires Consistent(db)
    requires |jobs| == |db.jobs| && forall j :: 0 <= j < |jobs| ==> jobs[j] == Forget(db.jobs[j], b)
    ensures LedgerOk(jobs, db.ledger) && NotesOk(jobs, db.announced, db.notes) && KeysUnique(jobs)
  {
    BilledBytesSame(db.jobs, jobs);
    forall k | 0 <= k < |jobs|
      ensures NotesOfRow(db.announced, k, jobs[k].status)
      ensures Charges(db.ledger, k, jobs[k]) == (if jobs[k].status.Billed() then 1 else 0)
    {
      assert NotesOfRow(db.announced, k, db.jobs[k].status);
      assert Charges(db.ledger, k, db.jobs[k]) == (if db.jobs[k].status.Billed() then 1 else 0);
    }
  }

  lemma DeleteBlobKeeps(db: Db, b: nat)
    requires Consistent(db)
    ensures Consistent(DeleteBlob(db, b)) && Evolves(db, DeleteBlob(db, b), None)
  {
    if InputOf(db, b) {
      StutterKeeps(db);
    } else {
      ForgetRows(db, b, DeleteBlob(db, b).jobs);
      ForgetBooks(db, b, DeleteBlob(db, b).jobs);
    }
  }

  lemma DeleteUnlinked(db: Db, b: nat)
    requires Unlinked(db, b)
    ensures DeleteBlob(db, b) == db.(bytes := db.bytes - {b}, blobs := db.blobs - {b})
  {
    assert DeleteBlob(db, b).jobs == db.jobs;
  }

  lemma InsertRow(db: Db, row: Job)
    requires Consistent(db) && FindJob(db.jobs, row.request).None?
    requires RowOk(db.now, db.made, db.blobs, |db.jobs|, row) && row.status.Pending? && row.output.None?
    ensures RowsOk(db.now, db.made, db.blobs, db.jobs + [row]) && KeysUnique(db.jobs + [row])
    ensures RowsStep(db.now, db.made, db.jobs, db.jobs + [row], Some(row.input))
  {
    forall k | 0 <= k < |db.jobs| ensures RowStep(db.now, db.jobs[k], db.jobs[k]) {
    }
  }

  lemma InsertBooks(db: Db, row: Job)
    requires Consistent(db) && row.status.Pending?
    ensures LedgerOk(db.jobs + [row], db.ledger) && NotesOk(db.jobs + [row], db.announced, db.notes)
  {
    hide RowsOk, KeysUnique, BlobsOk;
    var n, jobs := |db.jobs|, db.jobs + [row];
    assert jobs[..n] == db.jobs;
    assert Charge(n, row.request.size) !in multiset(db.ledger);
    forall kind: NoteKind ensures Times(db.announced, n, kind) == 0 {
      assert Note(n, kind) !in multiset(db.announced);
    }
    forall k | 0 <= k < n ensures NotesOfRow(db.announced, k, jobs[k].status) {
      assert NotesOfRow(db.announced, k, db.jobs[k].status);
    }
  }

  lemma InsertJobKeeps(db: Db, submission: nat, r: Request, b: nat)
    requires Consistent(db) && FindJob(db.jobs, r).None?
    requires b < |db.made| && db.made[b].maker == Upload(submission) && b in db.blobs
    ensures var db' := InsertJob(db, submission, r, b); Consistent(db') && Evolves(db, db', Some(b))
  {
    var row := InsertJob(db, submission, r, b).jobs[|db.jobs|];
    InsertRow(db, row);
    InsertBooks(db, row);
  }
}
