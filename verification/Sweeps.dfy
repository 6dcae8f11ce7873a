/**
 * What a whole sweep achieves when nothing interferes, whatever the size of the backlog, and why a
 * sweep is no more than a run of the actions that `Protocol` lets interleave with everything else.
 */
module Sweeps {
  import opened Common
  import opened Jobs
  import opened Database
  import opened DatabaseInvariant
  import opened Protocol
  import opened Store

  // ---- Batches -----------------------------------------------------------------------------------

  function Min(a: nat, b: nat): nat {
    if a < b then a else b
  }

  predicate Distinct(rows: seq<nat>) {
    forall a, b :: 0 <= a < b < |rows| ==> rows[a] != rows[b]
  }

  function Elems(rows: seq<nat>): set<nat> {
    set r | r in rows
  }

  /** `rows` is a batch of at most `limit` of the rows that are due. */
  predicate Batch(due: set<nat>, limit: nat, rows: seq<nat>) {
    Distinct(rows) && Elems(rows) <= due && |rows| == Min(limit, |due|)
  }

  function Below(due: set<nat>, n: nat): set<nat> {
    set r | r in due && r < n
  }

  lemma BelowStep(due: set<nat>, n: nat)
    requires n > 0
    ensures |Below(due, n)| == |Below(due, n - 1)| + (if n - 1 in due then 1 else 0)
  {
    assert Below(due, n) == Below(due, n - 1) + (if n - 1 in due then {n - 1} else {});
  }

  lemma NoneBelow(due: set<nat>)
    ensures |Below(due, 0)| == 0
  {
    assert Below(due, 0) == {};
  }

  lemma {:induction false} NewestAre(due: set<nat>, n: nat, limit: nat)
    ensures var rows := Newest(due, n, limit);
            && |rows| == Min(limit, |Below(due, n)|)
            && (forall a, b :: 0 <= a < b < |rows| ==> rows[a] > rows[b])
            && (forall r: nat :: r in due && r < n && r !in rows ==> forall a :: 0 <= a < |rows| ==> rows[a] > r)
  {
    hide Below;
    if n == 0 {
      NoneBelow(due);
    } else if limit > 0 {
      BelowStep(due, n);
      NewestAre(due, n - 1, if n - 1 in due then limit - 1 else limit);
      if n - 1 in due {
        var rest := Newest(due, n - 1, limit - 1);
        forall r: nat | r in due && r < n && r !in Newest(due, n, limit)
          ensures forall a :: 0 <= a < |Newest(due, n, limit)| ==> Newest(due, n, limit)[a] > r
        {
          assert Newest(due, n, limit)[0] == n - 1;
          assert r !in rest;
        }
      }
    }
  }

  /** A maintenance query takes a batch, and leaves only older rows for the next pass. */
  lemma NewestIsBatch(due: set<nat>, n: nat, limit: nat)
    requires forall r :: r in due ==> r < n
    ensures var rows := Newest(due, n, limit);
            && Batch(due, limit, rows)
            && (forall r :: r in due && r !in rows ==> forall a :: 0 <= a < |rows| ==> r < rows[a])
  {
    NewestAre(due, n, limit);
    assert Below(due, n) == due;
  }

  lemma {:induction false} ElemsCount(rows: seq<nat>)
    requires Distinct(rows)
    ensures |Elems(rows)| == |rows|
    decreases |rows|
  {
    if rows != [] {
      var n := |rows| - 1;
      ElemsCount(rows[..n]);
      assert Elems(rows) == Elems(rows[..n]) + {rows[n]};
    }
  }

  /** What a pass leaves for the next one. */
  lemma Remaining(due: set<nat>, limit: nat, rows: seq<nat>, due': set<nat>)
    requires Batch(due, limit, rows) && due' == due - Elems(rows)
    ensures |due'| == |due| - Min(limit, |due|)
  {
    ElemsCount(rows);
    assert due == due' + Elems(rows);
  }

  // ---- The reaper --------------------------------------------------------------------------------

  /** Where an abandoned job belongs. */
  function Verdict(cfg: Config, row: Job): Status {
    if row.cancelRequested then Cancelled else if row.attempts >= cfg.maxAttempts then Failed else Retrying
  }

  /** The job as the reaper leaves it. */
  predicate Reaped(cfg: Config, row: Job, row': Job) {
    && row'.status == (if row.cancelRequested then Cancelled else if row.attempts >= cfg.maxAttempts then Failed else Retrying)
    && row'.generation == row.generation && row'.attempts == row.attempts && row'.output == row.output
    && (if row'.status.Retrying? then row' == row.(status := Retrying) else row'.percent == 0)
  }

  lemma ReapSettles(cfg: Config, db: Db, j: nat, threshold: int, mid: Db)
    requires Abandoned(db, j, threshold) && j < |mid.jobs| && mid.jobs[j] == db.jobs[j]
    ensures var (db', requeued) := ReapLogged(cfg, mid, ReapItem(j, db.jobs[j].attempts, db.jobs[j].cancelRequested, threshold));
            && |db'.jobs| == |mid.jobs| && Reaped(cfg, db.jobs[j], db'.jobs[j])
            && (forall k :: 0 <= k < |mid.jobs| && k != j ==> db'.jobs[k] == mid.jobs[k])
            && (requeued <==> Verdict(cfg, db.jobs[j]).Retrying?)
  {
  }

  /** The rows of `rows` are settled, the others untouched. */
  predicate Settled(cfg: Config, db: Db, rows: seq<nat>, db': Db) {
    && |db'.jobs| == |db.jobs|
    && (forall j :: 0 <= j < |db.jobs| && j in rows ==> Reaped(cfg, db.jobs[j], db'.jobs[j]))
    && (forall j :: 0 <= j < |db.jobs| && j !in rows ==> db'.jobs[j] == db.jobs[j])
  }

  /** The requeued jobs among `rows`, once each. */
  ghost predicate Resent(cfg: Config, db: Db, rows: seq<nat>, sent: seq<nat>) {
    && (forall j: nat :: j in sent <==> j in rows && j < |db.jobs| && Verdict(cfg, db.jobs[j]).Retrying?)
    && Distinct(sent)
  }

  lemma NothingSettled(cfg: Config, db: Db)
    ensures Settled(cfg, db, [], db) && Resent(cfg, db, [], [])
  {
  }

  lemma SettleOne(cfg: Config, db: Db, threshold: int, rows: seq<nat>, mid: Db, sent: seq<nat>, j: nat)
    requires Settled(cfg, db, rows, mid) && Resent(cfg, db, rows, sent)
    requires j < |db.jobs| && j !in rows && Abandoned(db, j, threshold)
    ensures var (db', requeued) := ReapLogged(cfg, mid, StaleItem(db, threshold, j));
            && Settled(cfg, db, rows + [j], db')
            && Resent(cfg, db, rows + [j], if requeued then sent + [j] else sent)
  {
    hide ReapLogged, Verdict;
    ReapSettles(cfg, db, j, threshold, mid);
  }

  /**
   * A pass over any selection of abandoned jobs settles exactly these, cancelled, failed or requeued,
   * touches no other, and dispatches exactly the requeued ones, once each.
   */
  lemma {:induction false} ReaperSettles(cfg: Config, db: Db, threshold: int, rows: seq<nat>)
    requires Distinct(rows) && forall i :: 0 <= i < |rows| ==> rows[i] < |db.jobs| && Abandoned(db, rows[i], threshold)
    ensures var (db', sent) := ReapAll(cfg, db, Snapped(db, threshold, rows));
            Settled(cfg, db, rows, db') && Resent(cfg, db, rows, sent)
    decreases |rows|
  {
    hide ReapLogged, Verdict, Settled, Resent;
    if rows == [] {
      NothingSettled(cfg, db);
    } else {
      var n := |rows| - 1;
      var items := Snapped(db, threshold, rows);
      ReaperSettles(cfg, db, threshold, rows[..n]);
      assert items[..n] == Snapped(db, threshold, rows[..n]);
      assert rows == rows[..n] + [rows[n]] && rows[n] !in rows[..n];
      SettleOne(cfg, db, threshold, rows[..n], ReapAll(cfg, db, items[..n]).0, ReapAll(cfg, db, items[..n]).1, rows[n]);
    }
  }

  lemma {:induction false} ElemsBelow(rows: seq<nat>, due: set<nat>)
    requires Elems(rows) <= due
    ensures forall i :: 0 <= i < |rows| ==> rows[i] in due
  {
    forall i | 0 <= i < |rows| ensures rows[i] in due {
      assert rows[i] in Elems(rows);
    }
  }

  /** Nothing that was settled is stale any more. */
  lemma SettledNotStale(cfg: Config, db: Db, rows: seq<nat>, db': Db, threshold: int)
    requires Settled(cfg, db, rows, db')
    ensures StaleRows(db', threshold) == StaleRows(db, threshold) - Elems(rows)
  {
  }

  /** A pass of the reaper at time `at`. */
  function ReaperPass(cfg: Config, db: Db, at: nat): Db {
    ReapAll(cfg, db.(now := at), StaleItems(db.(now := at), at - STALE_PROCESSING_AFTER, MAINTENANCE_BATCH_SIZE)).0
  }

  /** Whatever the backlog, a pass settles a full batch of it, or all of it, newest jobs first. */
  lemma PassSettlesBatch(cfg: Config, db: Db, at: nat)
    ensures var stale := StaleRows(db, at - STALE_PROCESSING_AFTER);
            var rows := Newest(stale, |db.jobs|, MAINTENANCE_BATCH_SIZE);
            var db' := ReaperPass(cfg, db, at);
            && Batch(stale, MAINTENANCE_BATCH_SIZE, rows)
            && (forall r :: r in stale && r !in rows ==> forall a :: 0 <= a < |rows| ==> r < rows[a])
            && Settled(cfg, db, rows, db')
            && StaleRows(db', at - STALE_PROCESSING_AFTER) == stale - Elems(rows)
            && |StaleRows(db', at - STALE_PROCESSING_AFTER)| == |stale| - Min(MAINTENANCE_BATCH_SIZE, |stale|)
  {
    hide ReapAll;
    var threshold := at - STALE_PROCESSING_AFTER;
    var stale := StaleRows(db, threshold);
    var rows := Newest(stale, |db.jobs|, MAINTENANCE_BATCH_SIZE);
    var late := db.(now := at);
    assert StaleRows(late, threshold) == stale;
    NewestIsBatch(stale, |db.jobs|, MAINTENANCE_BATCH_SIZE);
    ReaperSettles(cfg, late, threshold, rows);
    assert Settled(cfg, db, rows, ReaperPass(cfg, db, at));
    SettledNotStale(cfg, db, rows, ReaperPass(cfg, db, at), threshold);
    Remaining(stale, MAINTENANCE_BATCH_SIZE, rows, stale - Elems(rows));
  }

  // ---- A pass as a run ---------------------------------------------------------------------------

  function Snapshots(rows: seq<nat>): seq<Action>
    decreases |rows|
  {
    if rows == [] then [] else Snapshots(rows[..|rows| - 1]) + [AReapSnapshot(rows[|rows| - 1])]
  }

  /** The update of item `k`, and if it requeued the job the event after it. */
  function ItemRun(cfg: Config, s: State, k: nat): seq<Action>
    requires k < |s.reaps|
  {
    if Reap(cfg, s.db, s.reaps[k]).1 then [AReapAct(k), APay(|s.debts|)] else [AReapAct(k)]
  }

  function ItemsRun(cfg: Config, s: State, from: nat, n: nat): seq<Action> {
    if n == 0 then []
    else
      var before := ItemsRun(cfg, s, from, n - 1);
      var mid := Exec(cfg, s, before);
      if from + n - 1 < |mid.reaps| then before + ItemRun(cfg, mid, from + n - 1) else before
  }

  lemma ExecNothing(cfg: Config, s: State)
    ensures Exec(cfg, s, []) == s
  {
  }

  lemma ExecSnoc(cfg: Config, s: State, run: seq<Action>, a: Action)
    ensures Exec(cfg, s, run + [a]) == Apply(cfg, Exec(cfg, s, run), a)
  {
    hide Apply;
    assert (run + [a])[..|run|] == run;
  }

  lemma SnapshotTakes(cfg: Config, s: State, j: nat)
    requires j < |s.db.jobs| && Abandoned(s.db, j, s.db.now - STALE_PROCESSING_AFTER)
    ensures Apply(cfg, s, AReapSnapshot(j)) == s.(reaps := s.reaps + [StaleItem(s.db, s.db.now - STALE_PROCESSING_AFTER, j)])
  {
  }

  lemma ReaperApplies(cfg: Config, s: State, k: nat)
    ensures Apply(cfg, s, AReapAct(k)) == ReapAct(cfg, s, k) && Apply(cfg, s, APay(k)) == Pay(s, k)
  {
    hide ReapAct, Pay;
  }

  lemma RequeuePays(cfg: Config, s: State, k: nat)
    requires k < |s.reaps| && Reap(cfg, s.db, s.reaps[k]).1
    ensures var s' := Pay(ReapAct(cfg, s, k), |s.debts|);
            s'.db == ReapLogged(cfg, s.db, s.reaps[k]).0 && s'.reaps == s.reaps && |s'.debts| >= |s.debts|
  {
    hide MomentOf;
  }

  /** An item's actions do what the loop body of the sweep does. */
  lemma ItemReaps(cfg: Config, s: State, k: nat)
    requires k < |s.reaps|
    ensures var s' := Exec(cfg, s, ItemRun(cfg, s, k));
            s'.db == ReapLogged(cfg, s.db, s.reaps[k]).0 && s'.reaps == s.reaps && |s'.debts| >= |s.debts|
  {
    hide Apply, Exec, Reap, ReapAct, Pay;
    ReaperApplies(cfg, s, k);
    ExecNothing(cfg, s);
    ExecSnoc(cfg, s, [], AReapAct(k));
    assert [] + [AReapAct(k)] == [AReapAct(k)];
    if Reap(cfg, s.db, s.reaps[k]).1 {
      ExecSnoc(cfg, s, [AReapAct(k)], APay(|s.debts|));
      assert [AReapAct(k)] + [APay(|s.debts|)] == [AReapAct(k), APay(|s.debts|)];
      ReaperApplies(cfg, ReapAct(cfg, s, k), |s.debts|);
      RequeuePays(cfg, s, k);
    } else {
      NothingRequeued(cfg, s, k);
    }
  }

  lemma NothingRequeued(cfg: Config, s: State, k: nat)
    requires k < |s.reaps| && !Reap(cfg, s.db, s.reaps[k]).1
    ensures ReapAct(cfg, s, k) == s.(db := ReapLogged(cfg, s.db, s.reaps[k]).0)
  {
    hide Reap;
  }

  lemma {:induction false} SnapshotsTake(cfg: Config, s: State, rows: seq<nat>)
    requires Elems(rows) <= StaleRows(s.db, s.db.now - STALE_PROCESSING_AFTER)
    requires forall i :: 0 <= i < |rows| ==> rows[i] < |s.db.jobs|
    ensures Exec(cfg, s, Snapshots(rows)) == s.(reaps := s.reaps + Snapped(s.db, s.db.now - STALE_PROCESSING_AFTER, rows))
    decreases |rows|
  {
    hide Exec, Apply, StaleItem;
    var threshold := s.db.now - STALE_PROCESSING_AFTER;
    var items := Snapped(s.db, threshold, rows);
    if rows == [] {
      ExecNothing(cfg, s);
      assert s.reaps + items == s.reaps;
    } else {
      var n := |rows| - 1;
      assert rows == rows[..n] + [rows[n]] && rows[n] in Elems(rows);
      SnapshotsTake(cfg, s, rows[..n]);
      var before := Snapped(s.db, threshold, rows[..n]);
      ExecSnoc(cfg, s, Snapshots(rows[..n]), AReapSnapshot(rows[n]));
      SnapshotTakes(cfg, s.(reaps := s.reaps + before), rows[n]);
      assert s.reaps + items == (s.reaps + before) + [StaleItem(s.db, threshold, rows[n])];
    }
  }

  lemma {:induction false} ItemsReap(cfg: Config, s: State, from: nat, n: nat)
    requires from + n <= |s.reaps|
    ensures var s' := Exec(cfg, s, ItemsRun(cfg, s, from, n));
            && s'.db == ReapAll(cfg, s.db, s.reaps[from..from + n]).0
            && s'.reaps == s.reaps && |s'.debts| >= |s.debts|
    decreases n
  {
    hide Exec, Apply, ItemRun, ReapLogged;
    if n == 0 {
      ExecNothing(cfg, s);
    } else {
      var items := s.reaps[from..from + n];
      assert items[..n - 1] == s.reaps[from..from + (n - 1)];
      ItemsReap(cfg, s, from, n - 1);
      var before := ItemsRun(cfg, s, from, n - 1);
      var mid := Exec(cfg, s, before);
      ItemReaps(cfg, mid, from + n - 1);
      ExecSplit(cfg, s, before, ItemRun(cfg, mid, from + n - 1));
    }
  }

  /** Snapshots, updates, and events owed by these updates. */
  predicate OnlyReaper(run: seq<Action>, first: nat) {
    forall i :: 0 <= i < |run| ==> run[i].AReapSnapshot? || run[i].AReapAct? || (run[i].APay? && run[i].i >= first)
  }

  lemma {:induction false} SnapshotsOnly(rows: seq<nat>, first: nat)
    ensures OnlyReaper(Snapshots(rows), first)
    decreases |rows|
  {
    if rows != [] {
      SnapshotsOnly(rows[..|rows| - 1], first);
    }
  }

  lemma {:induction false} ItemsRunOnly(cfg: Config, s: State, from: nat, n: nat)
    requires from + n <= |s.reaps|
    ensures OnlyReaper(ItemsRun(cfg, s, from, n), |s.debts|)
    decreases n
  {
    hide Exec, Reap, ReapAll;
    if n > 0 {
      ItemsRunOnly(cfg, s, from, n - 1);
      ItemsReap(cfg, s, from, n - 1);
    }
  }

  lemma OnlyReaperJoin(a: seq<Action>, b: seq<Action>, first: nat)
    requires OnlyReaper(a, first) && OnlyReaper(b, first)
    ensures OnlyReaper(a + b, first)
  {
  }

  lemma NewestElems(due: set<nat>, n: nat, limit: nat)
    ensures Elems(Newest(due, n, limit)) <= due
  {
    hide Newest;
  }

  lemma SnappedCount(db: Db, threshold: int, rows: seq<nat>)
    requires forall i :: 0 <= i < |rows| ==> rows[i] < |db.jobs|
    ensures |Snapped(db, threshold, rows)| == |rows|
  {
  }

  /** The run of a pass over `rows`: all snapshots, then item by item. */
  function ReaperRun(cfg: Config, s: State, rows: seq<nat>): seq<Action> {
    Snapshots(rows) + ItemsRun(cfg, Exec(cfg, s, Snapshots(rows)), |s.reaps|, |rows|)
  }

  /** A reaper pass is a run of snapshots, updates and late events, so everything proved of runs holds of it. */
  lemma ReaperPassIsRun(cfg: Config, s: State)
    ensures var rows := Newest(StaleRows(s.db, s.db.now - STALE_PROCESSING_AFTER), |s.db.jobs|, MAINTENANCE_BATCH_SIZE);
            && Exec(cfg, s, ReaperRun(cfg, s, rows)).db == ReaperPass(cfg, s.db, s.db.now)
            && OnlyReaper(ReaperRun(cfg, s, rows), |s.debts|)
  {
    hide Exec, ItemsRun, Newest, StaleRows, Snapped, Snapshots, ReapAll, OnlyReaper, Elems;
    var threshold := s.db.now - STALE_PROCESSING_AFTER;
    var rows := Newest(StaleRows(s.db, threshold), |s.db.jobs|, MAINTENANCE_BATCH_SIZE);
    var items := Snapped(s.db, threshold, rows);
    var mid := s.(reaps := s.reaps + items);
    SnappedCount(s.db, threshold, rows);
    NewestElems(StaleRows(s.db, threshold), |s.db.jobs|, MAINTENANCE_BATCH_SIZE);
    SnapshotsTake(cfg, s, rows);
    SnapshotsOnly(rows, |s.debts|);
    ItemsReap(cfg, mid, |s.reaps|, |rows|);
    ItemsRunOnly(cfg, mid, |s.reaps|, |rows|);
    assert mid.reaps[|s.reaps|..|s.reaps| + |rows|] == items;
    assert s.db.(now := s.db.now) == s.db;
    ExecSplit(cfg, s, Snapshots(rows), ItemsRun(cfg, mid, |s.reaps|, |rows|));
    OnlyReaperJoin(Snapshots(rows), ItemsRun(cfg, mid, |s.reaps|, |rows|), |s.debts|);
  }

  // ---- Retention -----------------------------------------------------------------------------------

  /** The row of an expired job, and the bytes of its output. */
  predicate Retired(db: Db, db': Db, j: nat)
    requires j < |db.jobs| && j < |db'.jobs|
  {
    && db'.jobs[j] == db.jobs[j].(status := Expired, output := None)
    && (db.jobs[j].output.Some? ==> BlobGone(db, db', db.jobs[j].output.value))
  }

  /** Stamped, and without bytes unless it was stamped before. */
  predicate BlobGone(db: Db, db': Db, b: nat) {
    && b in db.blobs && b in db'.blobs && db'.blobs[b].deletedAt.Some?
    && (db.blobs[b].deletedAt.None? ==> b !in db'.bytes)
  }

  /** A file that goes belonged to an output of `rows`. */
  ghost predicate OnlyTheirsGo(db: Db, db': Db, rows: seq<nat>)
    requires forall i :: 0 <= i < |rows| ==> rows[i] < |db.jobs|
  {
    && db'.bytes <= db.bytes
    && (forall b :: b in db.blobs && db.blobs[b].deletedAt.Some? ==> b in db'.blobs && db'.blobs[b].deletedAt.Some?)
    && (forall b: nat :: (forall i :: 0 <= i < |rows| ==> db.jobs[rows[i]].output != Some(b)) ==>
          (b in db'.bytes <==> b in db.bytes) && (b in db.blobs && b in db'.blobs ==> db'.blobs[b] == db.blobs[b]))
  }

  /** `db'` is `mid` with job `j` retired. */
  ghost predicate OneExpired(db: Db, mid: Db, db': Db, j: nat)
    requires j < |db.jobs|
  {
    && |db'.jobs| == |db.jobs| == |mid.jobs| && db'.blobs.Keys == mid.blobs.Keys && db'.now == mid.now
    && db'.jobs[j] == db.jobs[j].(status := Expired, output := None)
    && (forall k :: 0 <= k < |db.jobs| && k != j ==> db'.jobs[k] == mid.jobs[k])
    && FileShredded(mid, db', db.jobs[j].output)
  }

  ghost predicate FileShredded(mid: Db, db': Db, blob: Option<nat>) {
    match blob
    case None => db'.bytes == mid.bytes && db'.blobs == mid.blobs
    case Some(b) =>
      && b in mid.blobs && b in db'.blobs && db'.blobs[b].deletedAt.Some?
      && db'.bytes == (if mid.blobs[b].deletedAt.None? then mid.bytes - {b} else mid.bytes)
      && (forall c :: c in mid.blobs && c != b ==> c in db'.blobs && db'.blobs[c] == mid.blobs[c])
  }

  lemma ExpireOne(db: Db, mid: Db, j: nat)
    requires Consistent(db) && j < |db.jobs| && ExpiryDue(db, j)
    requires |mid.jobs| == |db.jobs| && mid.blobs.Keys == db.blobs.Keys && mid.jobs[j] == db.jobs[j]
    ensures OneExpired(db, mid, ExpireOutput(mid, j, db.jobs[j].output, db.now), j)
  {
    assert RowOk(db.now, db.made, db.blobs, j, db.jobs[j]);
    assert db.jobs[j].output.Some? ==> db.jobs[j].output.value in mid.blobs.Keys;
    var db' := ExpireOutput(mid, j, db.jobs[j].output, db.now);
    assert db'.blobs.Keys == mid.blobs.Keys;
  }

  /** `db'` is `db` with exactly the jobs of `rows` retired. */
  ghost predicate AllRetired(db: Db, rows: seq<nat>, db': Db)
    requires forall i :: 0 <= i < |rows| ==> rows[i] < |db.jobs|
  {
    && |db'.jobs| == |db.jobs| && db'.blobs.Keys == db.blobs.Keys && db'.now == db.now
    && (forall i :: 0 <= i < |rows| ==> Retired(db, db', rows[i]))
    && (forall j :: 0 <= j < |db.jobs| && j !in rows ==> db'.jobs[j] == db.jobs[j])
    && OnlyTheirsGo(db, db', rows)
  }

  /** Due outputs carry the number of their job. */
  lemma OutputNotShared(db: Db, j: nat)
    requires Consistent(db) && j < |db.jobs|
    ensures forall k :: 0 <= k < |db.jobs| && k != j && db.jobs[k].output.Some? ==> db.jobs[k].output != db.jobs[j].output
  {
    assert RowOk(db.now, db.made, db.blobs, j, db.jobs[j]);
    forall k | 0 <= k < |db.jobs| && k != j && db.jobs[k].output.Some? ensures db.jobs[k].output != db.jobs[j].output {
      assert RowOk(db.now, db.made, db.blobs, k, db.jobs[k]);
    }
  }

  lemma ShredOne(db: Db, mid: Db, db': Db, rows: seq<nat>, j: nat)
    requires j < |db.jobs| && OneExpired(db, mid, db', j) && forall i :: 0 <= i < |rows| ==> rows[i] < |db.jobs|
    requires mid.blobs.Keys == db.blobs.Keys && OnlyTheirsGo(db, mid, rows)
    ensures OnlyTheirsGo(db, db', rows + [j])
  {
    var all := rows + [j];
    forall b: nat | forall i :: 0 <= i < |all| ==> db.jobs[all[i]].output != Some(b)
      ensures (b in db'.bytes <==> b in db.bytes) && (b in db.blobs && b in db'.blobs ==> db'.blobs[b] == db.blobs[b])
    {
      assert all[|rows|] == j && forall i :: 0 <= i < |rows| ==> all[i] == rows[i];
      assert b in db.blobs <==> b in mid.blobs.Keys;
    }
    forall b | b in db.blobs && db.blobs[b].deletedAt.Some? ensures b in db'.blobs && db'.blobs[b].deletedAt.Some? {
      assert b in mid.blobs && mid.blobs[b].deletedAt.Some?;
    }
  }

  lemma OutputGoes(db: Db, mid: Db, db': Db, rows: seq<nat>, j: nat)
    requires Consistent(db) && j < |db.jobs| && OneExpired(db, mid, db', j) && j !in rows
    requires forall i :: 0 <= i < |rows| ==> rows[i] < |db.jobs|
    requires mid.blobs.Keys == db.blobs.Keys && OnlyTheirsGo(db, mid, rows)
    ensures Retired(db, db', j)
  {
    if db.jobs[j].output.Some? {
      var b := db.jobs[j].output.value;
      OutputNotShared(db, j);
      assert b in mid.blobs.Keys;
      assert b in mid.blobs && b in db.blobs && mid.blobs[b] == db.blobs[b];
    }
  }

  lemma RetiredStays(db: Db, mid: Db, db': Db, j: nat, k: nat)
    requires Consistent(db) && k != j && j < |db.jobs| && k < |db.jobs| && OneExpired(db, mid, db', j) && Retired(db, mid, k)
    requires mid.blobs.Keys == db.blobs.Keys
    ensures Retired(db, db', k)
  {
    if db.jobs[k].output.Some? {
      var b := db.jobs[k].output.value;
      OutputNotShared(db, j);
      assert b in mid.blobs && mid.blobs[b].deletedAt.Some?;
      assert b in db'.blobs && db'.blobs[b] == mid.blobs[b];
    }
  }

  lemma RetireOne(db: Db, mid: Db, rows: seq<nat>, j: nat, all: seq<nat>)
    requires j < |db.jobs| && ExpiryDue(db, j) && j !in rows && all == rows + [j]
    requires (forall i :: 0 <= i < |rows| ==> rows[i] < |db.jobs|) && forall i :: 0 <= i < |all| ==> all[i] < |db.jobs|
    requires AllRetired(db, rows, mid) && Consistent(db)
    ensures AllRetired(db, all, ExpireOutput(mid, j, db.jobs[j].output, db.now))
  {
    hide ExpireOutput, Retired, OnlyTheirsGo, Consistent;
    var db' := ExpireOutput(mid, j, db.jobs[j].output, db.now);
    ExpireOne(db, mid, j);
    ShredOne(db, mid, db', rows, j);
    OutputGoes(db, mid, db', rows, j);
    forall i | 0 <= i < |all| ensures Retired(db, db', all[i]) {
      if i < |rows| { RetiredStays(db, mid, db', j, rows[i]); }
    }
  }

  lemma NothingRetired(db: Db)
    ensures AllRetired(db, [], db)
  {
  }

  /** A pass over any selection of due jobs expires exactly these, with their files. */
  lemma {:induction false} ExpiryRetires(db: Db, rows: seq<nat>)
    requires Consistent(db) && Distinct(rows)
    requires forall i :: 0 <= i < |rows| ==> rows[i] < |db.jobs| && ExpiryDue(db, rows[i])
    ensures AllRetired(db, rows, ExpireAll(db, DueItemsOf(db, rows)))
    decreases |rows|
  {
    hide ExpireOutput, Consistent, AllRetired;
    if rows == [] {
      NothingRetired(db);
    } else {
      var n := |rows| - 1;
      ExpiryRetires(db, rows[..n]);
      assert DueItemsOf(db, rows)[..n] == DueItemsOf(db, rows[..n]);
      assert rows == rows[..n] + [rows[n]] && rows[n] !in rows[..n];
      RetireOne(db, ExpireAll(db, DueItemsOf(db, rows[..n])), rows[..n], rows[n], rows);
    }
  }

  lemma RetiredNotDue(db: Db, rows: seq<nat>, db': Db)
    requires (forall i :: 0 <= i < |rows| ==> rows[i] < |db.jobs|) && AllRetired(db, rows, db')
    ensures DueRows(db') == DueRows(db) - Elems(rows)
  {
    hide OnlyTheirsGo;
    forall j: nat | j in rows && j < |db.jobs| ensures !ExpiryDue(db', j) {
      assert exists i :: 0 <= i < |rows| && rows[i] == j;
    }
  }

  /** Whatever the backlog, a pass expires a full batch of the due outputs, or all of them, and no other. */
  lemma ExpiryRetiresBatch(db: Db, limit: nat)
    requires Consistent(db)
    ensures var rows, db' := Newest(DueRows(db), |db.jobs|, limit), ExpireAll(db, DueItems(db, limit));
            && Batch(DueRows(db), limit, rows)
            && AllRetired(db, rows, db')
            && DueRows(db') == DueRows(db) - Elems(rows)
            && |DueRows(db')| == |DueRows(db)| - Min(limit, |DueRows(db)|)
  {
    hide ExpireAll, AllRetired, Consistent;
    var rows := Newest(DueRows(db), |db.jobs|, limit);
    NewestIsBatch(DueRows(db), |db.jobs|, limit);
    ExpiryRetires(db, rows);
    RetiredNotDue(db, rows, ExpireAll(db, DueItems(db, limit)));
    Remaining(DueRows(db), limit, rows, DueRows(db) - Elems(rows));
  }

  // ---- Orphans ---------------------------------------------------------------------------------------

  lemma {:induction false} DeleteAllUnlinked(db: Db, blobs: seq<nat>)
    requires forall b :: b in blobs ==> Unlinked(db, b)
    ensures var db' := DeleteAll(db, blobs);
            && db' == db.(blobs := db'.blobs, bytes := db'.bytes)
            && (forall b :: b in db'.blobs <==> b in db.blobs && b !in blobs)
            && (forall b :: b in db'.bytes <==> b in db.bytes && b !in blobs)
    decreases |blobs|
  {
    if blobs != [] {
      var n := |blobs| - 1;
      assert blobs == blobs[..n] + [blobs[n]];
      DeleteAllUnlinked(db, blobs[..n]);
      assert blobs[n] in blobs && Unlinked(db, blobs[n]);
      DeleteUnlinked(DeleteAll(db, blobs[..n]), blobs[n]);
    }
  }

  lemma OrphansUnlinked(cfg: Config, db: Db, limit: nat)
    ensures Batch(OrphanRows(cfg, db), limit, Orphans(cfg, db, limit))
    ensures forall b :: b in Orphans(cfg, db, limit) ==> Unlinked(db, b)
  {
    hide Unlinked;
    NewestIsBatch(OrphanRows(cfg, db), |db.made|, limit);
    var rows := Orphans(cfg, db, limit);
    forall b | b in rows ensures Unlinked(db, b) {
      assert exists i :: 0 <= i < |rows| && rows[i] == b;
    }
  }

  lemma OrphansLeft(cfg: Config, db: Db, rows: seq<nat>, db': Db)
    requires db' == db.(blobs := db'.blobs, bytes := db'.bytes)
    requires forall b :: b in db'.blobs <==> b in db.blobs && b !in rows
    ensures OrphanRows(cfg, db') == OrphanRows(cfg, db) - Elems(rows)
  {
  }

  /** Whatever the backlog, a pass removes a full batch of the collectable blobs, or all, row and bytes, and no other. */
  lemma CollectorRemovesBatch(cfg: Config, db: Db, limit: nat)
    ensures var rows, db' := Orphans(cfg, db, limit), DeleteAll(db, Orphans(cfg, db, limit));
            && Batch(OrphanRows(cfg, db), limit, rows)
            && db'.jobs == db.jobs
            && (forall b: nat :: b in db'.blobs <==> b in db.blobs && b !in rows)
            && (forall b: nat :: b in db'.bytes <==> b in db.bytes && b !in rows)
            && |OrphanRows(cfg, db')| == |OrphanRows(cfg, db)| - Min(limit, |OrphanRows(cfg, db)|)
  {
    hide Collectable, DeleteAll, OrphanRows;
    var due, rows := OrphanRows(cfg, db), Orphans(cfg, db, limit);
    OrphansUnlinked(cfg, db, limit);
    DeleteAllUnlinked(db, rows);
    OrphansLeft(cfg, db, rows, DeleteAll(db, rows));
    Remaining(due, limit, rows, due - Elems(rows));
  }

  // ---- Inputs ----------------------------------------------------------------------------------------

  lemma {:induction false} ShredAllBytes(db: Db, blobs: seq<nat>)
    ensures var db' := ShredAll(db, blobs);
            && db' == db.(blobs := db'.blobs, bytes := db'.bytes) && db'.blobs.Keys == db.blobs.Keys
            && (forall b :: b in db.blobs && b in blobs ==> db'.blobs[b].deletedAt.Some?)
            && (forall b :: b in db.blobs && b !in blobs ==> db'.blobs[b] == db.blobs[b])
            && (forall b :: b !in blobs ==> (b in db'.bytes <==> b in db.bytes))
            && (forall b :: b in blobs && b in db.blobs && db.blobs[b].deletedAt.None? ==> b !in db'.bytes)
            && db'.bytes <= db.bytes
    decreases |blobs|
  {
    if blobs != [] {
      var n := |blobs| - 1;
      assert blobs == blobs[..n] + [blobs[n]];
      ShredAllBytes(db, blobs[..n]);
    }
  }

  lemma InputsAre(db: Db, rows: seq<nat>, j: nat)
    requires (forall i :: 0 <= i < |rows| ==> rows[i] < |db.jobs|) && j in rows
    ensures j < |db.jobs| && db.jobs[j].input in InputsOf(db, rows)
  {
    var i :| 0 <= i < |rows| && rows[i] == j;
    assert InputsOf(db, rows)[i] == db.jobs[j].input;
  }

  /** Whatever the backlog, a pass clears a full batch of the inputs due, or all; blob rows stay, and so does every other file. */
  lemma PurgeClearsBatch(cfg: Config, db: Db, limit: nat)
    ensures var rows, inputs := Newest(PurgeRows(cfg, db), |db.jobs|, limit), PurgeableInputs(cfg, db, limit);
            var db' := ShredAll(db, inputs);
            && Batch(PurgeRows(cfg, db), limit, rows)
            && db'.jobs == db.jobs && db'.blobs.Keys == db.blobs.Keys
            && (forall j :: j in rows ==> j < |db.jobs| && !PurgeDue(cfg, db', j) && db.jobs[j].input !in db'.bytes)
            && (forall b :: b !in inputs ==> (b in db'.bytes <==> b in db.bytes))
            && PurgeRows(cfg, db') <= PurgeRows(cfg, db) - Elems(rows)
            && |PurgeRows(cfg, db')| <= |PurgeRows(cfg, db)| - Min(limit, |PurgeRows(cfg, db)|)
  {
    var due := PurgeRows(cfg, db);
    var rows, inputs := Newest(due, |db.jobs|, limit), PurgeableInputs(cfg, db, limit);
    var db' := ShredAll(db, inputs);
    NewestIsBatch(due, |db.jobs|, limit);
    ShredAllBytes(db, inputs);
    forall j | j in rows ensures j < |db.jobs| && !PurgeDue(cfg, db', j) && db.jobs[j].input !in db'.bytes {
      InputsAre(db, rows, j);
    }
    PurgedFewer(cfg, db, rows, db', limit);
  }

  lemma PurgedFewer(cfg: Config, db: Db, rows: seq<nat>, db': Db, limit: nat)
    requires Batch(PurgeRows(cfg, db), limit, rows)
    requires db'.jobs == db.jobs && db'.now == db.now && db'.blobs.Keys == db.blobs.Keys
    requires forall b :: b in db.blobs && b in db'.blobs && db'.blobs[b].deletedAt.None? ==> db.blobs[b].deletedAt.None?
    requires forall j :: j in rows ==> j < |db.jobs| && !PurgeDue(cfg, db', j)
    ensures PurgeRows(cfg, db') <= PurgeRows(cfg, db) - Elems(rows)
    ensures |PurgeRows(cfg, db')| <= |PurgeRows(cfg, db)| - Min(limit, |PurgeRows(cfg, db)|)
  {
    var due, due' := PurgeRows(cfg, db), PurgeRows(cfg, db');
    forall j | j in due' ensures j in due {
      assert db.jobs[j].input in db.blobs.Keys;
    }
    Remaining(due, limit, rows, due - Elems(rows));
    Fewer(due', due - Elems(rows));
  }

  lemma Fewer(a: set<nat>, b: set<nat>)
    requires a <= b
    ensures |a| <= |b|
  {
    assert b == a + (b - a);
  }
}
