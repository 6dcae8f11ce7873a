/**
 * What undisturbed sweeps do to a backlog of any size, on the columns of the tables: a pass takes at
 * most 200 rows, newest first, and after as many passes as it takes batches nothing is left behind.
 */
module Backlogs {
  import opened Common
  import opened Jobs
  import opened Database
  import opened DatabaseInvariant
  import opened Protocol
  import opened Store
  import opened SystemSafety
  import opened Sweeps

  predicate Rising(times: seq<nat>) {
    forall a, b :: 0 <= a < b < |times| ==> times[a] <= times[b]
  }

  /** What was due at first is done, or `passes` full batches of what is due at last. */
  predicate Drained(low: set<nat>, high: set<nat>, all: set<nat>, passes: nat) {
    low == {} || |high| + passes * 200 <= |all|
  }

  lemma DrainStep(low: set<nat>, due: set<nat>, high: set<nat>, rows: seq<nat>,
                  low': set<nat>, due': set<nat>, high': set<nat>, all: set<nat>, passes: nat)
    requires low <= due <= high && Batch(due, MAINTENANCE_BATCH_SIZE, rows)
    requires due' <= due - Elems(rows) && high' <= high - Elems(rows) && low' <= due' && low' <= low
    requires Drained(low, high, all, passes)
    ensures Drained(low', high', all, passes + 1)
  {
    ElemsCount(rows);
    if |due| <= MAINTENANCE_BATCH_SIZE {
      Counted(due - Elems(rows), rows, due);
      assert due - Elems(rows) == {};
    } else {
      Counted(high - Elems(rows), rows, high);
      Fewer(high', high - Elems(rows));
    }
  }

  lemma Counted(rest: set<nat>, rows: seq<nat>, due: set<nat>)
    requires Distinct(rows) && Elems(rows) <= due && rest == due - Elems(rows)
    ensures |rest| == |due| - |rows|
  {
    ElemsCount(rows);
    assert due == rest + Elems(rows);
  }

  lemma DrainEnds(low: set<nat>, high: set<nat>, all: set<nat>, passes: nat)
    requires Drained(low, high, all, passes) && low <= high && |all| <= passes * 200
    ensures low == {}
  {
    Fewer(low, high);
  }

  // ---- The reaper ----------------------------------------------------------------------------------

  /** PROCESSING, and without a sign of life for more than ten minutes. */
  predicate Silent(row: Job, at: nat) {
    row.status.Processing? && (if row.heartbeat.Some? then row.heartbeat.value else row.updatedAt) + 600 < at
  }

  function SilentJobs(db: Db, at: nat): set<nat> {
    set j: nat | j < |db.jobs| && Silent(db.jobs[j], at)
  }

  lemma SilentIsStale(db: Db, at: nat)
    ensures StaleRows(db, at - STALE_PROCESSING_AFTER) == SilentJobs(db, at)
  {
  }

  function ReaperPasses(cfg: Config, db: Db, times: seq<nat>): Db
    decreases |times|
  {
    if times == [] then db else ReaperPass(cfg, ReaperPasses(cfg, db, times[..|times| - 1]), times[|times| - 1])
  }

  /** Every job is as it was, or settled, being silent by `high`. */
  predicate Onward(cfg: Config, db: Db, db': Db, high: nat) {
    && |db'.jobs| == |db.jobs|
    && forall j :: 0 <= j < |db.jobs| ==> 
         db'.jobs[j] == db.jobs[j] || (Silent(db.jobs[j], high) && Reaped(cfg, db.jobs[j], db'.jobs[j]))
  }

  lemma OnwardStep(cfg: Config, db: Db, mid: Db, rows: seq<nat>, last: Db, at: nat, high: nat)
    requires Onward(cfg, db, mid, high) && Settled(cfg, mid, rows, last) && Elems(rows) <= SilentJobs(mid, at) && at <= high
    ensures Onward(cfg, db, last, high)
  {
    forall j | 0 <= j < |db.jobs| 
      ensures last.jobs[j] == db.jobs[j] || (Silent(db.jobs[j], high) && Reaped(cfg, db.jobs[j], last.jobs[j]))
    {
      if j in rows {
        assert j in Elems(rows);
      }
    }
  }

  lemma ReapOnce(cfg: Config, db: Db, mid: Db, at: nat, low: nat, high: nat, passes: nat)
    requires Onward(cfg, db, mid, high) && Drained(SilentJobs(mid, low), SilentJobs(mid, high), SilentJobs(db, high), passes)
    requires low <= at <= high
    ensures var last := ReaperPass(cfg, mid, at);
            && Onward(cfg, db, last, high)
            && Drained(SilentJobs(last, low), SilentJobs(last, high), SilentJobs(db, high), passes + 1)
  {
    hide ReaperPass, Drained, StaleRows;
    var last := ReaperPass(cfg, mid, at);
    var rows := Newest(StaleRows(mid, at - STALE_PROCESSING_AFTER), |mid.jobs|, MAINTENANCE_BATCH_SIZE);
    PassSettlesBatch(cfg, mid, at);
    SilentIsStale(mid, at);
    OnwardStep(cfg, db, mid, rows, last, at, high);
    SettledNotSilent(cfg, mid, rows, last, low);
    SettledNotSilent(cfg, mid, rows, last, at);
    SettledNotSilent(cfg, mid, rows, last, high);
    SilentLater(mid, low, at);
    SilentLater(mid, at, high);
    SilentLater(last, low, at);
    DrainStep(SilentJobs(mid, low), SilentJobs(mid, at), SilentJobs(mid, high), rows,
              SilentJobs(last, low), SilentJobs(last, at), SilentJobs(last, high), SilentJobs(db, high), passes);
  }

  lemma SilentLater(db: Db, low: nat, high: nat)
    requires low <= high
    ensures SilentJobs(db, low) <= SilentJobs(db, high)
  {
  }

  lemma SettledNotSilent(cfg: Config, db: Db, rows: seq<nat>, db': Db, at: nat)
    requires Settled(cfg, db, rows, db')
    ensures SilentJobs(db', at) == SilentJobs(db, at) - Elems(rows)
  {
  }

  lemma {:induction false} ReapRepeatedly(cfg: Config, db: Db, times: seq<nat>, low: nat, high: nat)
    requires forall i :: 0 <= i < |times| ==> low <= times[i] <= high
    ensures var last := ReaperPasses(cfg, db, times);
            && Onward(cfg, db, last, high)
            && Drained(SilentJobs(last, low), SilentJobs(last, high), SilentJobs(db, high), |times|)
    decreases |times|
  {
    hide ReaperPass, SilentJobs;
    if times != [] {
      var n := |times| - 1;
      ReapRepeatedly(cfg, db, times[..n], low, high);
      ReapOnce(cfg, db, ReaperPasses(cfg, db, times[..n]), times[n], low, high, n);
    }
  }

  /**
   * Undisturbed passes drain any backlog of abandoned jobs, although a pass serves newer jobs first:
   * after as many passes as it takes batches for all that is silent by the last one, every job that
   * was silent at the first is cancelled, failed or requeued, and no other than those.
   */
  lemma ReaperDrains(cfg: Config, db: Db, times: seq<nat>)
    requires times != [] && Rising(times) && |SilentJobs(db, times[|times| - 1])| <= |times| * 200
    ensures var db' := ReaperPasses(cfg, db, times);
            && |db'.jobs| == |db.jobs|
            && (forall j :: 0 <= j < |db.jobs| && Silent(db.jobs[j], times[0]) ==> Reaped(cfg, db.jobs[j], db'.jobs[j]))
            && (forall j :: 0 <= j < |db.jobs| && !Silent(db.jobs[j], times[|times| - 1]) ==> db'.jobs[j] == db.jobs[j])
  {
    hide ReaperPasses;
    var low, high, last := times[0], times[|times| - 1], ReaperPasses(cfg, db, times);
    ReapRepeatedly(cfg, db, times, low, high);
    SilentLater(last, low, high);
    DrainEnds(SilentJobs(last, low), SilentJobs(last, high), SilentJobs(db, high), |times|);
    forall j | 0 <= j < |db.jobs| && Silent(db.jobs[j], low) ensures Reaped(cfg, db.jobs[j], last.jobs[j]) {
      assert j !in SilentJobs(last, low);
    }
  }

  // ---- Retention of outputs --------------------------------------------------------------------------

  /** DONE, with an output whose time is over. */
  predicate Ripe(row: Job, at: nat) {
    row.status.Done? && row.expiresAt.Some? && row.expiresAt.value <= at
  }

  function RipeJobs(db: Db, at: nat): set<nat> {
    set j: nat | j < |db.jobs| && Ripe(db.jobs[j], at)
  }

  lemma RipeIsDue(db: Db)
    ensures DueRows(db) == RipeJobs(db, db.now)
  {
  }

  /** A pass of the expiry sweep at time `at`. */
  function ExpiryPass(db: Db, at: nat): Db {
    ExpireAll(db.(now := at), DueItems(db.(now := at), MAINTENANCE_BATCH_SIZE))
  }

  function ExpiryPasses(db: Db, times: seq<nat>): Db
    decreases |times|
  {
    if times == [] then db else ExpiryPass(ExpiryPasses(db, times[..|times| - 1]), times[|times| - 1])
  }

  /** The output file of `row` is gone, and its row is stamped. */
  predicate FileGone(db: Db, db': Db, row: Job) {
    row.output.Some? ==> BlobGone(db, db', row.output.value)
  }

  predicate FileSame(db: Db, db': Db, b: nat) {
    && (b in db.blobs ==> b in db'.blobs && db'.blobs[b] == db.blobs[b])
    && (b in db'.bytes <==> b in db.bytes)
  }

  /** Job `j` is as it was, file and all, or expired, being ripe by `high`. */
  predicate KeptOrExpired(db: Db, db': Db, high: nat, j: nat)
    requires j < |db.jobs| && j < |db'.jobs|
  {
    || (db'.jobs[j] == db.jobs[j] && (db.jobs[j].output.Some? ==> FileSame(db, db', db.jobs[j].output.value)))
    || (Ripe(db.jobs[j], high) && db'.jobs[j] == db.jobs[j].(status := Expired, output := None) && FileGone(db, db', db.jobs[j]))
  }

  ghost predicate Expiring(db: Db, db': Db, high: nat) {
    && Consistent(db') && |db'.jobs| == |db.jobs| && db.now <= db'.now
    && forall j :: 0 <= j < |db.jobs| ==> KeptOrExpired(db, db', high, j)
  }

  lemma {:induction false} ExpireAllKeeps(db: Db, items: seq<ExpiryItem>)
    requires Consistent(db)
    ensures Consistent(ExpireAll(db, items))
    decreases |items|
  {
    hide ExpireOutput, Consistent;
    if items != [] {
      var n := |items| - 1;
      ExpireAllKeeps(db, items[..n]);
      ExpireOutputKeeps(ExpireAll(db, items[..n]), items[n].job, items[n].blob, items[n].cutoff);
    }
  }

  /** One pass, from a state the passes so far have left. */
  lemma PassExpires(db: Db, at: nat)
    requires Consistent(db) && db.now <= at
    ensures var late, last := db.(now := at), ExpiryPass(db, at); var rows := Newest(DueRows(late), |late.jobs|, MAINTENANCE_BATCH_SIZE);
            && Consistent(late) && Consistent(last) && AllRetired(late, rows, last)
            && Batch(RipeJobs(db, at), MAINTENANCE_BATCH_SIZE, rows)
  {
    hide Consistent, AllRetired, ExpireAll;
    var late := db.(now := at);
    DbTick(db, at - db.now);
    RipeIsDue(late);
    assert RipeJobs(late, at) == RipeJobs(db, at);
    ExpiryRetiresBatch(late, MAINTENANCE_BATCH_SIZE);
    ExpireAllKeeps(late, DueItems(late, MAINTENANCE_BATCH_SIZE));
  }

  lemma ExpiringStep(db: Db, mid: Db, rows: seq<nat>, late: Db, last: Db, high: nat, j: nat)
    requires Expiring(db, mid, high) && late == mid.(now := late.now) && mid.now <= late.now && Consistent(late)
    requires (forall i :: 0 <= i < |rows| ==> rows[i] < |late.jobs| && Ripe(late.jobs[rows[i]], high)) && AllRetired(late, rows, last)
    requires j < |db.jobs| && Consistent(db)
    ensures |last.jobs| == |db.jobs| && KeptOrExpired(db, last, high, j)
  {
    hide Consistent;
    assert KeptOrExpired(db, mid, high, j);
    if j in rows {
      var i :| 0 <= i < |rows| && rows[i] == j;
      assert Retired(late, last, rows[i]);
      OutputStored(db, j);
    } else {
      if late.jobs[j].output.Some? { OutputElsewhere(late, rows, last, j); }
      if db.jobs[j].output.Some? {
        OutputStored(db, j);
        StampStays(db, mid, late, rows, last, db.jobs[j].output.value);
      }
    }
  }

  lemma OutputStored(db: Db, j: nat)
    requires Consistent(db) && j < |db.jobs|
    ensures db.jobs[j].output.Some? ==> db.jobs[j].output.value in db.blobs
  {
    assert RowOk(db.now, db.made, db.blobs, j, db.jobs[j]);
  }

  /** The output of a job outside of the batch is no output of the batch. */
  lemma OutputElsewhere(db: Db, rows: seq<nat>, db': Db, j: nat)
    requires Consistent(db) && j < |db.jobs| && j !in rows && db.jobs[j].output.Some?
    requires (forall i :: 0 <= i < |rows| ==> rows[i] < |db.jobs|) && AllRetired(db, rows, db')
    ensures FileSame(db, db', db.jobs[j].output.value)
  {
    var b := db.jobs[j].output.value;
    OutputNotShared(db, j);
    OutputStored(db, j);
    forall i | 0 <= i < |rows| ensures db.jobs[rows[i]].output != Some(b) {
      assert rows[i] in rows;
    }
    assert b in db'.blobs.Keys;
  }

  /** What is stamped stays stamped, and what is gone stays gone. */
  lemma StampStays(db: Db, mid: Db, late: Db, rows: seq<nat>, last: Db, b: nat)
    requires (forall i :: 0 <= i < |rows| ==> rows[i] < |late.jobs|) && AllRetired(late, rows, last)
    requires late == mid.(now := late.now)
    ensures BlobGone(db, mid, b) ==> BlobGone(db, last, b)
  {
  }

  lemma RipeLeft(mid: Db, late: Db, rows: seq<nat>, last: Db, at: nat)
    requires late == mid.(now := late.now)
    requires (forall i :: 0 <= i < |rows| ==> rows[i] < |late.jobs|) && AllRetired(late, rows, last)
    ensures RipeJobs(last, at) == RipeJobs(mid, at) - Elems(rows)
  {
    hide OnlyTheirsGo;
    forall j: nat | j in rows && j < |last.jobs| ensures !Ripe(last.jobs[j], at) {
      assert exists i :: 0 <= i < |rows| && rows[i] == j;
    }
  }

  lemma RipeLater(db: Db, low: nat, high: nat)
    requires low <= high
    ensures RipeJobs(db, low) <= RipeJobs(db, high)
  {
  }

  lemma ExpireOnce(db: Db, mid: Db, at: nat, low: nat, high: nat, passes: nat)
    requires Consistent(db) && Expiring(db, mid, high) && mid.now <= at && low <= at <= high
    requires Drained(RipeJobs(mid, low), RipeJobs(mid, high), RipeJobs(db, high), passes)
    ensures var last := ExpiryPass(mid, at);
            && Expiring(db, last, high) && last.now == at
            && Drained(RipeJobs(last, low), RipeJobs(last, high), RipeJobs(db, high), passes + 1)
  {
    hide ExpiryPass, Drained, Consistent, AllRetired, KeptOrExpired, DueRows;
    var late, last := mid.(now := at), ExpiryPass(mid, at);
    var rows := Newest(DueRows(late), |late.jobs|, MAINTENANCE_BATCH_SIZE);
    PassExpires(mid, at);
    RowsRipe(mid, rows, at);
    ClockOf(late, rows, last);
    forall j | 0 <= j < |db.jobs| ensures |last.jobs| == |db.jobs| && KeptOrExpired(db, last, high, j) {
      ExpiringStep(db, mid, rows, late, last, high, j);
    }
    RipeLeft(mid, late, rows, last, low);
    RipeLeft(mid, late, rows, last, at);
    RipeLeft(mid, late, rows, last, high);
    RipeLater(mid, low, at);
    RipeLater(mid, at, high);
    RipeLater(last, low, at);
    DrainStep(RipeJobs(mid, low), RipeJobs(mid, at), RipeJobs(mid, high), rows,
              RipeJobs(last, low), RipeJobs(last, at), RipeJobs(last, high), RipeJobs(db, high), passes);
  }

  lemma RowsRipe(db: Db, rows: seq<nat>, at: nat)
    requires Elems(rows) <= RipeJobs(db, at)
    ensures forall i :: 0 <= i < |rows| ==> rows[i] < |db.jobs| && Ripe(db.jobs[rows[i]], at)
  {
    forall i | 0 <= i < |rows| ensures rows[i] < |db.jobs| && Ripe(db.jobs[rows[i]], at) {
      assert rows[i] in Elems(rows);
    }
  }

  lemma ClockOf(late: Db, rows: seq<nat>, last: Db)
    requires (forall i :: 0 <= i < |rows| ==> rows[i] < |late.jobs|) && AllRetired(late, rows, last)
    ensures last.now == late.now && |last.jobs| == |late.jobs|
  {
  }

  lemma {:induction false} ExpireRepeatedly(db: Db, times: seq<nat>, low: nat, high: nat)
    requires Consistent(db) && Rising(times) && forall i :: 0 <= i < |times| ==> db.now <= times[i] && low <= times[i] <= high
    ensures var last := ExpiryPasses(db, times);
            && Expiring(db, last, high) && last.now == (if times == [] then db.now else times[|times| - 1])
            && Drained(RipeJobs(last, low), RipeJobs(last, high), RipeJobs(db, high), |times|)
    decreases |times|
  {
    hide ExpiryPass, RipeJobs, Consistent;
    if times != [] {
      var n := |times| - 1;
      ExpireRepeatedly(db, times[..n], low, high);
      ExpireOnce(db, ExpiryPasses(db, times[..n]), times[n], low, high, n);
    }
  }

  /**
   * Undisturbed passes retire any backlog of outputs: after as many as it takes batches for all that
   * is ripe by the last one, every output that was ripe at the first is gone with its file, and no
   * output whose time is not over.
   */
  lemma ExpiryDrains(db: Db, times: seq<nat>)
    requires Consistent(db) && times != [] && Rising(times) && db.now <= times[0]
    requires |RipeJobs(db, times[|times| - 1])| <= |times| * 200
    ensures var db' := ExpiryPasses(db, times);
            && |db'.jobs| == |db.jobs|
            && (forall j :: 0 <= j < |db.jobs| && Ripe(db.jobs[j], times[0]) ==>
                  db'.jobs[j] == db.jobs[j].(status := Expired, output := None) && FileGone(db, db', db.jobs[j]))
            && (forall j :: 0 <= j < |db.jobs| && !Ripe(db.jobs[j], times[|times| - 1]) ==>
                  db'.jobs[j] == db.jobs[j] && (db.jobs[j].output.Some? ==> FileSame(db, db', db.jobs[j].output.value)))
  {
    hide ExpiryPasses, Consistent;
    var low, high, last := times[0], times[|times| - 1], ExpiryPasses(db, times);
    ExpireRepeatedly(db, times, low, high);
    RipeLater(last, low, high);
    DrainEnds(RipeJobs(last, low), RipeJobs(last, high), RipeJobs(db, high), |times|);
    forall j | 0 <= j < |db.jobs| && Ripe(db.jobs[j], low)
      ensures last.jobs[j] == db.jobs[j].(status := Expired, output := None) && FileGone(db, last, db.jobs[j])
    {
      assert KeptOrExpired(db, last, high, j) && j !in RipeJobs(last, low);
    }
    forall j | 0 <= j < |db.jobs| && !Ripe(db.jobs[j], high)
      ensures last.jobs[j] == db.jobs[j] && (db.jobs[j].output.Some? ==> FileSame(db, last, db.jobs[j].output.value))
    {
      assert KeptOrExpired(db, last, high, j);
    }
  }

  // ---- Retention of inputs ---------------------------------------------------------------------------

  /** Finished, and created and finished longer ago than the retention. */
  predicate PastRetention(cfg: Config, row: Job, at: nat) {
    && (row.status == Done || row.status == Failed || row.status == Cancelled || row.status == Expired)
    && row.createdAt + cfg.inputTtl < at
    && (row.finishedAt.Some? ==> row.finishedAt.value + cfg.inputTtl < at)
  }

  /** The row of blob `b` is there and says that the file is, too. */
  predicate Unstamped(db: Db, b: nat) {
    b in db.blobs && db.blobs[b].deletedAt.None?
  }

  function OverdueJobs(cfg: Config, db: Db, at: nat): set<nat> {
    set j: nat | j < |db.jobs| && PastRetention(cfg, db.jobs[j], at) && Unstamped(db, db.jobs[j].input)
  }

  lemma OverdueIsPurgeable(cfg: Config, db: Db)
    ensures PurgeRows(cfg, db) == OverdueJobs(cfg, db, db.now)
  {
  }

  /** A pass of the input purge at time `at`. */
  function PurgePass(cfg: Config, db: Db, at: nat): Db {
    ShredAll(db.(now := at), PurgeableInputs(cfg, db.(now := at), MAINTENANCE_BATCH_SIZE))
  }

  function PurgePasses(cfg: Config, db: Db, times: seq<nat>): Db
    decreases |times|
  {
    if times == [] then db else PurgePass(cfg, PurgePasses(cfg, db, times[..|times| - 1]), times[|times| - 1])
  }

  ghost predicate OverdueInput(cfg: Config, db: Db, high: nat, b: nat) {
    exists j :: 0 <= j < |db.jobs| && db.jobs[j].input == b && PastRetention(cfg, db.jobs[j], high)
  }

  /** The jobs stay; a file that goes was somebody's overdue input, and its row is stamped. */
  ghost predicate Clearing(cfg: Config, db: Db, db': Db, high: nat) {
    && db'.jobs == db.jobs && db'.blobs.Keys == db.blobs.Keys && db'.bytes <= db.bytes
    && (forall b :: b in db.blobs && db.blobs[b].deletedAt.Some? ==> db'.blobs[b] == db.blobs[b])
    && (forall b :: Unstamped(db, b) && !Unstamped(db', b) ==> b !in db'.bytes)
    && (forall b :: !OverdueInput(cfg, db, high, b) ==>
          (b in db'.bytes <==> b in db.bytes) && (b in db.blobs ==> db'.blobs[b] == db.blobs[b]))
  }

  lemma PassPurges(cfg: Config, db: Db, at: nat)
    ensures var late := db.(now := at); var inputs := PurgeableInputs(cfg, late, MAINTENANCE_BATCH_SIZE);
            var rows := Newest(PurgeRows(cfg, late), |late.jobs|, MAINTENANCE_BATCH_SIZE);
            && Batch(OverdueJobs(cfg, db, at), MAINTENANCE_BATCH_SIZE, rows)
            && (forall i :: 0 <= i < |rows| ==> rows[i] < |db.jobs|) && inputs == InputsOf(db, rows)
            && PurgePass(cfg, db, at) == ShredAll(late, inputs)
  {
    hide ShredAll;
    var late := db.(now := at);
    OverdueIsPurgeable(cfg, late);
    assert OverdueJobs(cfg, late, at) == OverdueJobs(cfg, db, at);
    NewestIsBatch(PurgeRows(cfg, late), |late.jobs|, MAINTENANCE_BATCH_SIZE);
    var rows := Newest(PurgeRows(cfg, late), |late.jobs|, MAINTENANCE_BATCH_SIZE);
    assert InputsOf(late, rows) == InputsOf(db, rows);
  }

  lemma OverdueLeft(cfg: Config, mid: Db, late: Db, rows: seq<nat>, at: nat)
    requires late.jobs == mid.jobs && late.blobs == mid.blobs && forall i :: 0 <= i < |rows| ==> rows[i] < |mid.jobs|
    ensures OverdueJobs(cfg, ShredAll(late, InputsOf(mid, rows)), at) <= OverdueJobs(cfg, mid, at) - Elems(rows)
  {
    var inputs := InputsOf(mid, rows);
    var last := ShredAll(late, inputs);
    ShredAllBytes(late, inputs);
    forall j | j in OverdueJobs(cfg, last, at) ensures j in OverdueJobs(cfg, mid, at) && j !in Elems(rows) {
      assert mid.jobs[j].input in late.blobs.Keys;
      if j in rows { InputsAre(mid, rows, j); }
    }
  }

  lemma OverdueLater(cfg: Config, db: Db, low: nat, high: nat)
    requires low <= high
    ensures OverdueJobs(cfg, db, low) <= OverdueJobs(cfg, db, high)
  {
  }

  lemma ClearingStep(cfg: Config, db: Db, mid: Db, late: Db, rows: seq<nat>, at: nat, high: nat)
    requires Clearing(cfg, db, mid, high) && late == mid.(now := at) && at <= high
    requires Elems(rows) <= OverdueJobs(cfg, mid, at) && forall i :: 0 <= i < |rows| ==> rows[i] < |mid.jobs|
    ensures Clearing(cfg, db, ShredAll(late, InputsOf(mid, rows)), high)
  {
    var inputs := InputsOf(mid, rows);
    var last := ShredAll(late, inputs);
    ShredAllBytes(late, inputs);
    forall b | b in inputs ensures OverdueInput(cfg, db, high, b) && Unstamped(mid, b) {
      var i :| 0 <= i < |inputs| && inputs[i] == b;
      assert rows[i] in Elems(rows) && db.jobs[rows[i]].input == b;
    }
    forall b | b in db.blobs ensures b in mid.blobs.Keys && b in last.blobs.Keys {
    }
  }

  lemma PurgeOnce(cfg: Config, db: Db, mid: Db, at: nat, low: nat, high: nat, passes: nat)
    requires Clearing(cfg, db, mid, high) && low <= at <= high
    requires Drained(OverdueJobs(cfg, mid, low), OverdueJobs(cfg, mid, high), OverdueJobs(cfg, db, high), passes)
    ensures var last := PurgePass(cfg, mid, at);
            && Clearing(cfg, db, last, high)
            && Drained(OverdueJobs(cfg, last, low), OverdueJobs(cfg, last, high), OverdueJobs(cfg, db, high), passes + 1)
  {
    hide Drained, OverdueJobs, PurgePass, ShredAll, InputsOf, Clearing;
    var late, last := mid.(now := at), PurgePass(cfg, mid, at);
    var rows := Newest(PurgeRows(cfg, late), |late.jobs|, MAINTENANCE_BATCH_SIZE);
    PassPurges(cfg, mid, at);
    ClearingStep(cfg, db, mid, late, rows, at, high);
    OverdueLeft(cfg, mid, late, rows, low);
    OverdueLeft(cfg, mid, late, rows, at);
    OverdueLeft(cfg, mid, late, rows, high);
    OverdueLater(cfg, mid, low, at);
    OverdueLater(cfg, mid, at, high);
    OverdueLater(cfg, last, low, at);
    DrainStep(OverdueJobs(cfg, mid, low), OverdueJobs(cfg, mid, at), OverdueJobs(cfg, mid, high), rows,
              OverdueJobs(cfg, last, low), OverdueJobs(cfg, last, at), OverdueJobs(cfg, last, high),
              OverdueJobs(cfg, db, high), passes);
  }

  lemma {:induction false} PurgeRepeatedly(cfg: Config, db: Db, times: seq<nat>, low: nat, high: nat)
    requires forall i :: 0 <= i < |times| ==> low <= times[i] <= high
    ensures var last := PurgePasses(cfg, db, times);
            && Clearing(cfg, db, last, high)
            && Drained(OverdueJobs(cfg, last, low), OverdueJobs(cfg, last, high), OverdueJobs(cfg, db, high), |times|)
    decreases |times|
  {
    hide PurgePass, OverdueJobs;
    if times != [] {
      var n := |times| - 1;
      PurgeRepeatedly(cfg, db, times[..n], low, high);
      PurgeOnce(cfg, db, PurgePasses(cfg, db, times[..n]), times[n], low, high, n);
    }
  }

  /**
   * Undisturbed passes clear any backlog of inputs: after as many as it takes batches for all that is
   * overdue by the last one, no job that is DONE, FAILED, CANCELLED or EXPIRED, and was past its
   * retention at the first, has a file behind an unstamped row; and no other file is gone.
   */
  lemma PurgeDrains(cfg: Config, db: Db, times: seq<nat>)
    requires times != [] && Rising(times)
    requires |OverdueJobs(cfg, db, times[|times| - 1])| <= |times| * 200
    ensures var db' := PurgePasses(cfg, db, times);
            && db'.jobs == db.jobs && db'.blobs.Keys == db.blobs.Keys
            && (forall j :: 0 <= j < |db.jobs| && PastRetention(cfg, db.jobs[j], times[0]) ==>
                  && !Unstamped(db', db.jobs[j].input)
                  && (Unstamped(db, db.jobs[j].input) ==> db.jobs[j].input !in db'.bytes))
            && (forall b :: !OverdueInput(cfg, db, times[|times| - 1], b) ==>
                  (b in db'.bytes <==> b in db.bytes) && (Unstamped(db', b) <==> Unstamped(db, b)))
  {
    hide PurgePasses;
    var low, high, last := times[0], times[|times| - 1], PurgePasses(cfg, db, times);
    PurgeRepeatedly(cfg, db, times, low, high);
    OverdueLater(cfg, last, low, high);
    DrainEnds(OverdueJobs(cfg, last, low), OverdueJobs(cfg, last, high), OverdueJobs(cfg, db, high), |times|);
    forall j | 0 <= j < |db.jobs| && PastRetention(cfg, db.jobs[j], low) ensures !Unstamped(last, db.jobs[j].input) {
      assert j !in OverdueJobs(cfg, last, low);
    }
    forall b | !OverdueInput(cfg, db, high, b) ensures Unstamped(last, b) <==> Unstamped(db, b) {
      assert b in db.blobs <==> b in last.blobs.Keys;
    }
  }

  // ---- Unreferenced blobs ------------------------------------------------------------------------------

  /** Written longer ago than the collection window, and neither input nor output of any job. */
  ghost predicate Orphaned(cfg: Config, db: Db, b: nat, at: nat) {
    && b in db.blobs && b < |db.made| && db.made[b].at + cfg.gcWindow < at
    && !exists j :: 0 <= j < |db.jobs| && (db.jobs[j].input == b || db.jobs[j].output == Some(b))
  }

  ghost function OrphanSet(cfg: Config, db: Db, at: nat): set<nat> {
    set b | b in db.blobs && Orphaned(cfg, db, b, at)
  }

  lemma OrphanedIsCollectable(cfg: Config, db: Db)
    ensures OrphanRows(cfg, db) == OrphanSet(cfg, db, db.now)
  {
    forall b: nat ensures b in OrphanRows(cfg, db) <==> b in OrphanSet(cfg, db, db.now) {
    }
  }

  /** A pass of the collector at time `at`. */
  function CollectorPass(cfg: Config, db: Db, at: nat): Db {
    DeleteAll(db.(now := at), Orphans(cfg, db.(now := at), MAINTENANCE_BATCH_SIZE))
  }

  function CollectorPasses(cfg: Config, db: Db, times: seq<nat>): Db
    decreases |times|
  {
    if times == [] then db else CollectorPass(cfg, CollectorPasses(cfg, db, times[..|times| - 1]), times[|times| - 1])
  }

  /** Only orphans have gone, row and bytes. */
  ghost predicate Collecting(cfg: Config, db: Db, db': Db, high: nat) {
    && db'.jobs == db.jobs && db'.made == db.made
    && (forall b :: b in db'.blobs ==> b in db.blobs && db'.blobs[b] == db.blobs[b])
    && (forall b :: b in db'.bytes ==> b in db.bytes)
    && (forall b :: b in db.blobs && b !in db'.blobs ==> Orphaned(cfg, db, b, high) && b !in db'.bytes)
    && (forall b :: b in db.bytes && b !in db'.bytes ==> Orphaned(cfg, db, b, high))
  }

  lemma PassCollects(cfg: Config, db: Db, at: nat)
    ensures var rows, last := Orphans(cfg, db.(now := at), MAINTENANCE_BATCH_SIZE), CollectorPass(cfg, db, at);
            && Batch(OrphanSet(cfg, db, at), MAINTENANCE_BATCH_SIZE, rows)
            && last.jobs == db.jobs && last.made == db.made
            && (forall b: nat :: b in last.blobs <==> b in db.blobs && b !in rows)
            && (forall b :: b in last.blobs ==> last.blobs[b] == db.blobs[b])
            && (forall b: nat :: b in last.bytes <==> b in db.bytes && b !in rows)
  {
    var late := db.(now := at);
    OrphanedIsCollectable(cfg, late);
    assert OrphanSet(cfg, late, at) == OrphanSet(cfg, db, at);
    CollectorRemovesBatch(cfg, late, MAINTENANCE_BATCH_SIZE);
    CollectedOnly(cfg, late);
  }

  lemma CollectedOnly(cfg: Config, db: Db)
    ensures var last := DeleteAll(db, Orphans(cfg, db, MAINTENANCE_BATCH_SIZE));
            last.made == db.made && forall b :: b in last.blobs ==> b in db.blobs && last.blobs[b] == db.blobs[b]
  {
    OrphansUnlinked(cfg, db, MAINTENANCE_BATCH_SIZE);
    DeleteAllRows(db, Orphans(cfg, db, MAINTENANCE_BATCH_SIZE));
  }

  lemma {:induction false} DeleteAllRows(db: Db, blobs: seq<nat>)
    ensures var last := DeleteAll(db, blobs);
            last.made == db.made && forall b :: b in last.blobs ==> b in db.blobs && last.blobs[b] == db.blobs[b]
    decreases |blobs|
  {
    if blobs != [] {
      DeleteAllRows(db, blobs[..|blobs| - 1]);
    }
  }

  lemma OrphansAfter(cfg: Config, mid: Db, rows: seq<nat>, last: Db, at: nat)
    requires last.jobs == mid.jobs && last.made == mid.made
    requires forall b: nat :: b in last.blobs <==> b in mid.blobs && b !in rows
    ensures OrphanSet(cfg, last, at) == OrphanSet(cfg, mid, at) - Elems(rows)
  {
    forall b: nat ensures b in OrphanSet(cfg, last, at) <==> b in OrphanSet(cfg, mid, at) && b !in Elems(rows) {
    }
  }

  lemma OrphansLater(cfg: Config, db: Db, low: nat, high: nat)
    requires low <= high
    ensures OrphanSet(cfg, db, low) <= OrphanSet(cfg, db, high)
  {
  }

  lemma CollectingStep(cfg: Config, db: Db, mid: Db, rows: seq<nat>, last: Db, at: nat, high: nat)
    requires Collecting(cfg, db, mid, high) && at <= high && Elems(rows) <= OrphanSet(cfg, mid, at)
    requires last.jobs == mid.jobs && last.made == mid.made
    requires forall b: nat :: b in last.blobs <==> b in mid.blobs && b !in rows
    requires forall b :: b in last.blobs ==> last.blobs[b] == mid.blobs[b]
    requires forall b: nat :: b in last.bytes <==> b in mid.bytes && b !in rows
    ensures Collecting(cfg, db, last, high)
  {
    forall b | b in rows ensures Orphaned(cfg, db, b, high) {
      assert b in Elems(rows);
    }
  }

  lemma CollectOnce(cfg: Config, db: Db, mid: Db, at: nat, low: nat, high: nat, passes: nat)
    requires Collecting(cfg, db, mid, high) && low <= at <= high
    requires Drained(OrphanSet(cfg, mid, low), OrphanSet(cfg, mid, high), OrphanSet(cfg, db, high), passes)
    ensures var last := CollectorPass(cfg, mid, at);
            && Collecting(cfg, db, last, high)
            && Drained(OrphanSet(cfg, last, low), OrphanSet(cfg, last, high), OrphanSet(cfg, db, high), passes + 1)
  {
    hide Drained, OrphanSet, CollectorPass, Collecting, Orphans;
    var last, rows := CollectorPass(cfg, mid, at), Orphans(cfg, mid.(now := at), MAINTENANCE_BATCH_SIZE);
    PassCollects(cfg, mid, at);
    CollectingStep(cfg, db, mid, rows, last, at, high);
    OrphansAfter(cfg, mid, rows, last, low);
    OrphansAfter(cfg, mid, rows, last, at);
    OrphansAfter(cfg, mid, rows, last, high);
    OrphansLater(cfg, mid, low, at);
    OrphansLater(cfg, mid, at, high);
    OrphansLater(cfg, last, low, at);
    DrainStep(OrphanSet(cfg, mid, low), OrphanSet(cfg, mid, at), OrphanSet(cfg, mid, high), rows,
              OrphanSet(cfg, last, low), OrphanSet(cfg, last, at), OrphanSet(cfg, last, high), OrphanSet(cfg, db, high), passes);
  }

  lemma {:induction false} CollectRepeatedly(cfg: Config, db: Db, times: seq<nat>, low: nat, high: nat)
    requires forall i :: 0 <= i < |times| ==> low <= times[i] <= high
    ensures var last := CollectorPasses(cfg, db, times);
            && Collecting(cfg, db, last, high)
            && Drained(OrphanSet(cfg, last, low), OrphanSet(cfg, last, high), OrphanSet(cfg, db, high), |times|)
    decreases |times|
  {
    hide CollectorPass, OrphanSet;
    if times != [] {
      var n := |times| - 1;
      CollectRepeatedly(cfg, db, times[..n], low, high);
      CollectOnce(cfg, db, CollectorPasses(cfg, db, times[..n]), times[n], low, high, n);
    }
  }

  /**
   * Undisturbed passes collect any backlog of unreferenced blobs: after as many as it takes batches
   * for all that is orphaned by the last one, none that was orphaned at the first is left, neither row
   * nor bytes, and nothing else is gone.
   */
  lemma CollectorDrains(cfg: Config, db: Db, times: seq<nat>)
    requires times != [] && Rising(times)
    requires |OrphanSet(cfg, db, times[|times| - 1])| <= |times| * 200
    ensures var db' := CollectorPasses(cfg, db, times);
            && db'.jobs == db.jobs
            && (forall b :: Orphaned(cfg, db, b, times[0]) ==> b !in db'.blobs && b !in db'.bytes)
            && (forall b :: !Orphaned(cfg, db, b, times[|times| - 1]) ==>
                  (b in db'.blobs <==> b in db.blobs) && (b in db'.bytes <==> b in db.bytes))
  {
    hide CollectorPasses;
    var low, high, last := times[0], times[|times| - 1], CollectorPasses(cfg, db, times);
    CollectRepeatedly(cfg, db, times, low, high);
    OrphansLater(cfg, last, low, high);
    DrainEnds(OrphanSet(cfg, last, low), OrphanSet(cfg, last, high), OrphanSet(cfg, db, high), |times|);
    forall b | Orphaned(cfg, db, b, low) ensures b !in last.blobs && b !in last.bytes {
      assert b !in OrphanSet(cfg, last, low);
    }
  }
}
