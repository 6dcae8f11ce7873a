/**
 * How long files live: an output exactly for the hours that its verdict granted, an input until its
 * job has been finished for the input retention.
 */
module Retention {
  import opened Common
  import opened Jobs
  import opened Database
  import opened DatabaseInvariant
  import opened Protocol
  import opened ProtocolInvariant
  import opened Runs
  import opened RowHistory
  import opened JobGuarantees
  import opened BytesSafety
  import opened EventLog
  import opened Witness
  import opened Backlogs

  // ---- Outputs -----------------------------------------------------------------------------------------

  /** Worker `w` is about to write DONE for job `j`, with output `b`, under its claim. */
  predicate AboutToDeliver(s: State, w: nat, j: nat, b: nat) {
    && w < |s.workers| && s.workers[w].pc == AtDone(b) && s.workers[w].job == j && Fence(s.db, j, s.workers[w].generation)
    && s.db.jobs[j].output == Some(b) && b in s.db.blobs && s.db.blobs[b].deletedAt.None? && b in s.db.bytes
  }

  /** The delivered row; retention is given in hours, and time passes in seconds. */
  lemma DeliveredRow(cfg: Config, s: State, w: nat, j: nat, b: nat, ttl: nat)
    requires AboutToDeliver(s, w, j, b) && ttl > 0
    ensures var s' := Apply(cfg, s, Turn(w, ttl));
            && s'.db.jobs == s.db.jobs[j := s'.db.jobs[j]]
            && s'.db.jobs[j].status.Done? && s'.db.jobs[j].output == Some(b) && s'.db.jobs[j].request == s.db.jobs[j].request
            && s'.db.jobs[j].finishedAt == Some(s.db.now)
            && s'.db.jobs[j].expiresAt == Some(s.db.now + ttl * 3600)
            && s'.db.now == s.db.now && s'.db.blobs == s.db.blobs && s'.db.bytes == s.db.bytes && s'.expiries == s.expiries
  {
    hide ConcludeStep;
    VerdictTurn(cfg, s, w, ttl);
    Concluding(s, w, ttl);
  }

  lemma Concluding(s: State, w: nat, ttl: nat)
    requires w < |s.workers| && Fence(s.db, s.workers[w].job, s.workers[w].generation) && ttl > 0
    ensures var j := s.workers[w].job; var s' := ConcludeStep(s, w, Done, Some(100), ttl, false);
            && s'.db.jobs == s.db.jobs[j := Verdicted(s.db.now, s.db.jobs[j], Done, Some(100), ttl)]
            && s'.db.now == s.db.now && s'.db.blobs == s.db.blobs && s'.db.bytes == s.db.bytes && s'.expiries == s.expiries
  {
  }

  /** An expiry pass over job `j`, `d` seconds later. */
  function Later(cfg: Config, s: State, j: nat, d: nat): State {
    var late := Apply(cfg, s, ATick(d));
    Apply(cfg, Apply(cfg, late, AExpirySnapshot(j)), AExpiryAct(|late.expiries|))
  }

  lemma Expires(cfg: Config, s: State, j: nat, b: nat, end: nat, d: nat)
    requires j < |s.db.jobs| && s.db.jobs[j].status.Done? && s.db.jobs[j].output == Some(b)
    requires s.db.jobs[j].expiresAt == Some(end) && b in s.db.blobs && s.db.blobs[b].deletedAt.None? && b in s.db.bytes
    ensures var db' := Later(cfg, s, j, d).db;
            && j < |db'.jobs|
            && (if s.db.now + d >= end then db'.jobs[j].status.Expired? && db'.jobs[j].output.None? && b !in db'.bytes
                else db'.jobs[j] == s.db.jobs[j] && b in db'.bytes)
  {
    hide WorkerStep, SubmitStep, Stale;
  }

  lemma FoundWhile(cfg: Config, s: State, j: nat, d: nat)
    requires KeysUnique(s.db.jobs) && j < |s.db.jobs| && s.db.jobs[j].status.Done? && s.db.jobs[j].output.Some?
    requires s.db.jobs[j].output.value in s.db.blobs && s.db.blobs[s.db.jobs[j].output.value].deletedAt.None?
    requires s.db.jobs[j].expiresAt.Some?
    ensures var db, r := Apply(cfg, s, ATick(d)).db, s.db.jobs[j].request;
            Lookup(db, r, None, 0, false)
            == SubPc.Ended(if s.db.now + d < s.db.jobs[j].expiresAt.value then FoundJob(j) else Refused(KeySpent))
  {
    hide Stale;
    var found := FindJob(s.db.jobs, s.db.jobs[j].request);
    assert s.db.jobs[j].request.SameKey(s.db.jobs[j].request);
    OneHolder(s.db.jobs, j, found.value, s.db.jobs[j].request);
  }

  /**
   * A delivered output lives exactly as many hours as its retention says: until `3600 * ttl` seconds
   * after the verdict a repeated submission is answered with the job, and an expiry pass leaves job
   * and file alone; from then on the submission is refused, and the pass retires both.
   */
  lemma OutputLivesItsHours(cfg: Config, s: State, w: nat, j: nat, b: nat, ttl: nat, d: nat)
    requires Consistent(s.db) && AboutToDeliver(s, w, j, b) && ttl > 0
    ensures var done := Apply(cfg, s, Turn(w, ttl));
            var late, last := Apply(cfg, done, ATick(d)), Later(cfg, done, j, d);
            && j < |done.db.jobs| && done.db.jobs[j].status.Done? && j < |last.db.jobs|
            && last.db.jobs[j].status == (if d >= 3600 * ttl then Expired else Done)
            && (b in last.db.bytes <==> d < 3600 * ttl)
            && Lookup(late.db, s.db.jobs[j].request, None, 0, false)
               == SubPc.Ended(if d < 3600 * ttl then FoundJob(j) else Refused(KeySpent))
  {
    hide Apply, Later, Consistent;
    DeliveredRow(cfg, s, w, j, b, ttl);
    var done := Apply(cfg, s, Turn(w, ttl));
    Expires(cfg, done, j, b, s.db.now + ttl * 3600, d);
    KeysStayUnique(s.db, done.db.jobs, j);
    FoundWhile(cfg, done, j, d);
  }

  lemma KeysStayUnique(db: Db, jobs: seq<Job>, j: nat)
    requires Consistent(db) && j < |db.jobs| == |jobs| && jobs == db.jobs[j := jobs[j]] && jobs[j].request == db.jobs[j].request
    ensures KeysUnique(jobs)
  {
    KeysPut(db.jobs, j, jobs[j]);
  }

  /** Over every run from the verdict on: whatever happens, no output expires before its time. */
  lemma NeverExpiresEarly(cfg: Config, run: seq<Action>, w: nat, ttl: nat, more: seq<Action>)
    requires var s := Exec(cfg, START, run);
             w < |s.workers| && s.workers[w].pc.AtDone? && Fence(s.db, s.workers[w].job, s.workers[w].generation)
    ensures var s := Exec(cfg, START, run); var j := s.workers[w].job;
            var db' := Exec(cfg, START, run + [Turn(w, ttl)] + more).db;
            && j < |db'.jobs| && (db'.jobs[j].status.Done? || db'.jobs[j].status.Expired?)
            && db'.jobs[j].finishedAt == Some(s.db.now)
            && db'.jobs[j].expiresAt == Some(s.db.now + 3600 * ttl)
            && (db'.jobs[j].status.Expired? ==> db'.now >= s.db.now + 3600 * ttl)
  {
    hide Apply, Exec, Inv, Truthful;
    var s := Exec(cfg, START, run);
    var j, all := s.workers[w].job, run + [Turn(w, ttl)] + more;
    var done := Exec(cfg, START, run + [Turn(w, ttl)]);
    Then(cfg, START, run, Turn(w, ttl));
    VerdictStamps(cfg, s, w, ttl);
    Reachable(cfg, run + [Turn(w, ttl)]);
    ExecSplit(cfg, START, run + [Turn(w, ttl)], more);
    RowsLater(cfg, done, more);
    assert RowLater(done.db.jobs[j], Exec(cfg, START, all).db.jobs[j]);
    LogTells(cfg, all, j);
  }

  /** The verdict's row, at any retention. */
  lemma VerdictStamps(cfg: Config, s: State, w: nat, ttl: nat)
    requires w < |s.workers| && s.workers[w].pc.AtDone? && Fence(s.db, s.workers[w].job, s.workers[w].generation)
    ensures Stamped(s, Apply(cfg, s, Turn(w, ttl)).db, s.workers[w].job, ttl)
  {
    hide ConcludeStep, Stamped;
    VerdictTurn(cfg, s, w, ttl);
    ConcludingStamps(s, w, ttl);
  }

  predicate Stamped(s: State, db': Db, j: nat, ttl: nat) {
    && j < |db'.jobs| && db'.jobs[j].status == (if ttl == 0 then Expired else Done)
    && db'.jobs[j].finishedAt == Some(s.db.now) && db'.jobs[j].expiresAt == Some(s.db.now + 3600 * ttl)
  }

  lemma ConcludingStamps(s: State, w: nat, ttl: nat)
    requires w < |s.workers| && Fence(s.db, s.workers[w].job, s.workers[w].generation)
    ensures Stamped(s, ConcludeStep(s, w, Done, Some(100), ttl, false).db, s.workers[w].job, ttl)
  {
  }

  // ---- Inputs ------------------------------------------------------------------------------------------

  /** No other job's retention touches the input of job `j`. */
  lemma OwnInput(cfg: Config, run: seq<Action>, j: nat, high: nat)
    requires j < |Exec(cfg, START, run).db.jobs|
    ensures var db := Exec(cfg, START, run).db;
            OverdueInput(cfg, db, high, db.jobs[j].input) ==> PastRetention(cfg, db.jobs[j], high)
  {
    hide Exec;
    var db := Exec(cfg, START, run).db;
    if OverdueInput(cfg, db, high, db.jobs[j].input) {
      var k :| 0 <= k < |db.jobs| && db.jobs[k].input == db.jobs[j].input && PastRetention(cfg, db.jobs[k], high);
      if k < j {
        OneJobPerKey(cfg, run, k, j);
      } else if j < k {
        OneJobPerKey(cfg, run, j, k);
      }
    }
  }

  /** Within the retention, written on the columns, is within the retention. */
  lemma StillRetained(cfg: Config, run: seq<Action>, j: nat, at: nat)
    requires var db := Exec(cfg, START, run).db; j < |db.jobs| && db.now <= at && !PastRetention(cfg, db.jobs[j], at)
    ensures var db := Exec(cfg, START, run).db; Retained(cfg, db.now, db.jobs[j])
  {
    hide Exec;
    LogTells(cfg, run, j);
  }

  /**
   * After any prompt run, and then as many undisturbed passes of the input purge as it takes batches:
   * the input of a job is there if the job is unfinished, or was created or finished within the
   * retention, and not if it was past the retention when the passes began; so if the passes take no
   * time, exactly in the first case. Inputs that their own submission discarded are excepted.
   */
  lemma InputsKeptIffRetained(cfg: Config, run: seq<Action>, times: seq<nat>, j: nat)
    requires PromptRun(cfg, run) && times != [] && Rising(times) && Exec(cfg, START, run).db.now <= times[0]
    requires |OverdueJobs(cfg, Exec(cfg, START, run).db, times[|times| - 1])| <= |times| * 200
    requires j < |Exec(cfg, START, run).db.jobs| && !SpoiltJob(Exec(cfg, START, run), j)
    ensures var s := Exec(cfg, START, run);
            var row, db' := s.db.jobs[j], PurgePasses(cfg, s.db, times);
            && (!PastRetention(cfg, row, times[|times| - 1]) ==> Stored(db', row.input))
            && (PastRetention(cfg, row, times[0]) ==> !Stored(db', row.input))
            && (times[0] == times[|times| - 1] ==> (Stored(db', row.input) <==> !PastRetention(cfg, row, times[0])))
  {
    hide Exec, PurgePasses, OverdueJobs;
    var s := Exec(cfg, START, run);
    var last := times[|times| - 1];
    PurgeDrains(cfg, s.db, times);
    if !PastRetention(cfg, s.db.jobs[j], last) {
      OwnInput(cfg, run, j, last);
      StillRetained(cfg, run, j, last);
      FilesAreThere(cfg, run, j);
    }
  }
}
