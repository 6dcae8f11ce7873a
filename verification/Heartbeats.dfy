/**
 * The progress reports of a conversion as heartbeats: a converter that calls its reporter often
 * enough keeps its claim, although the reporter drops calls.
 */
module Heartbeats {
  import opened Common
  import opened Jobs
  import opened Database
  import opened DatabaseInvariant
  import opened Protocol
  import opened ProtocolInvariant
  import opened Runs
  import opened RowHistory
  import opened WorkerGuarantees
  import opened Progress

  /** The database clock, in whole seconds, at time `t` of the monotonic clock. */
  function Wall(epoch: real, t: real): int {
    (epoch + t).Floor
  }

  /** Call `k` of a reporter with the settings of `run_conversion` is not dropped. */
  predicate Written(calls: seq<Call>, k: nat)
    requires k < |calls|
  {
    !Skips(After(1.0, 1, calls[..k]), 1.0, 1, calls[k].now, calls[k].percent)
  }

  /** The action is the write of a report by worker `w` under its claim. */
  predicate Reports(s: State, a: Action, j: nat, g: nat, w: nat, percent: int) {
    && a.AWorker? && a.w == w && w < |s.workers| && s.workers[w].job == j && s.workers[w].generation == g
    && (match s.workers[w].pc
        case AtScan => Clamped(percent) == 5
        case AtConvert => a.oracle.report == Some(Clamped(percent))
        case AtReportPromote => a.oracle.report.Some? && Clamped(percent) == 96
        case _ => false)
  }

  lemma ReportBeats(cfg: Config, s: State, a: Action, j: nat, g: nat, w: nat, percent: int)
    requires Reports(s, a, j, g, w, percent) && Fence(s.db, j, g)
    ensures var db' := Apply(cfg, s, a).db; j < |db'.jobs| && db'.jobs[j].heartbeat == Some(s.db.now)
  {
    hide CheckStep, OutputStep, ClaimStep, VerdictStep;
  }

  /**
   * The calls of a reporter within a run: call `k`, if it is written, is action `at[k]`; `clock`
   * gives the monotonic time before each action.
   */
  datatype Timing = Timing(calls: seq<Call>, at: seq<nat>, clock: nat -> real, epoch: real)

  ghost predicate Timed(cfg: Config, run: seq<Action>, start: nat, end: nat, x: Timing)
    requires start <= end <= |run|
  {
    && (forall n :: start <= n <= end ==> NowAt(cfg, run, n) == Wall(x.epoch, x.clock(n)))
    && (forall m, n :: start <= m <= n <= end ==> x.clock(m) <= x.clock(n))
  }

  function NowAt(cfg: Config, run: seq<Action>, n: nat): nat
    requires n <= |run|
  {
    Exec(cfg, START, run[..n]).db.now
  }

  /** From `start` to `end` the worker calls its reporter at most `gap` seconds after its last call. */
  ghost predicate Calling(cfg: Config, run: seq<Action>, start: nat, end: nat, x: Timing, gap: real, j: nat, g: nat, w: nat)
    requires start <= end <= |run|
  {
    && Timed(cfg, run, start, end, x)
    && |x.at| == |x.calls| > 0 && x.at[0] == start && Spaced(x.calls, gap)
    && x.clock(end) <= x.calls[|x.calls| - 1].now + gap
    && (forall k :: 0 <= k < |x.calls| && Written(x.calls, k) ==>
          && start <= x.at[k] < end && x.clock(x.at[k]) == x.calls[k].now
          && Reports(Exec(cfg, START, run[..x.at[k]]), run[x.at[k]], j, g, w, x.calls[k].percent))
  }

  /** The heartbeat is no older than any report that was written before the `n`th action. */
  ghost predicate Beaten(cfg: Config, run: seq<Action>, n: nat, x: Timing, j: nat)
    requires n <= |run|
  {
    var jobs := Exec(cfg, START, run[..n]).db.jobs;
    && j < |jobs| && jobs[j].heartbeat.Some?
    && |x.at| == |x.calls|
    && forall k :: 0 <= k < |x.calls| && Written(x.calls, k) && x.at[k] < n ==>
         NowAt(cfg, run, x.at[k]) <= jobs[j].heartbeat.value
  }

  /** The write that the reporter remembers. */
  lemma {:induction false} LastWritten(calls: seq<Call>, k: nat) returns (m: nat)
    requires k < |calls|
    ensures m <= k && Written(calls, m) && After(1.0, 1, calls[..k + 1]).lastWrite == calls[m].now
  {
    assert calls[..k + 1][..k] == calls[..k];
    m := k;
    if !Written(calls, k) {
      assert k > 0 by {
        assert calls[..0] == [];
      }
      m := LastWritten(calls, k - 1);
      assert k - 1 + 1 == k;
    }
  }

  /** The latest call before `t`. */
  lemma {:induction false} LatestCall(calls: seq<Call>, gap: real, t: real) returns (k: nat)
    requires calls != [] && Spaced(calls, gap) && calls[0].now < t <= calls[|calls| - 1].now + gap
    ensures k < |calls| && calls[k].now < t <= calls[k].now + gap
  {
    k := |calls| - 1;
    if t <= calls[k].now {
      var before := calls[..k];
      assert calls[k].now <= calls[k - 1].now + gap;
      k := LatestCall(before, gap, t);
    }
  }

  /** At any time after the first call, some written one is at most `gap` and the throttle interval ago. */
  lemma RecentWrite(calls: seq<Call>, gap: real, t: real) returns (m: nat)
    requires calls != [] && Spaced(calls, gap) && calls[0].now < t <= calls[|calls| - 1].now + gap
    ensures m < |calls| && Written(calls, m) && calls[m].now < t <= calls[m].now + 1.0 + gap
  {
    var k := LatestCall(calls, gap, t);
    m := LastWritten(calls, k);
    WrittenRecently(1.0, 1, calls[..k + 1]);
    Ordered(calls, gap, m, k);
  }

  lemma {:induction false} Ordered(calls: seq<Call>, gap: real, m: nat, k: nat)
    requires m <= k < |calls| && Spaced(calls, gap)
    ensures calls[m].now <= calls[k].now
  {
    if m < k {
      Ordered(calls, gap, m, k - 1);
    }
  }

  /** Whole seconds differ by at most the whole seconds in between. */
  lemma WallWithin(epoch: real, a: real, b: real, seconds: nat)
    requires b <= a + seconds as real
    ensures Wall(epoch, b) <= Wall(epoch, a) + seconds
  {
    assert (epoch + a + seconds as real).Floor == (epoch + a).Floor + seconds;
  }

  lemma NotStale(cfg: Config, run: seq<Action>, start: nat, n: nat, end: nat, x: Timing, gap: real, j: nat, g: nat, w: nat)
    requires start < n <= end <= |run| && Calling(cfg, run, start, end, x, gap, j, g, w) && gap <= 599.0
    requires Beaten(cfg, run, n, x, j)
    ensures !StaleAt(cfg, run[..n], j, g)
  {
    hide Exec, Reports, Skips, After;
    var t, m := x.clock(n), 0;
    FirstIsWritten(x.calls);
    if x.calls[0].now < t {
      m := RecentWrite(x.calls, gap, t);
      assert x.at[m] < n;
      WallWithin(x.epoch, x.calls[m].now, t, 600);
    } else {
      assert x.clock(start) <= t;
    }
    assert NowAt(cfg, run, n) <= NowAt(cfg, run, x.at[m]) + 600;
  }

  lemma FirstIsWritten(calls: seq<Call>)
    requires calls != []
    ensures Written(calls, 0)
  {
    assert calls[..0] == [];
  }

  /** One action of the run, whoever takes it. */
  lemma BeatenStep(cfg: Config, run: seq<Action>, start: nat, n: nat, end: nat, x: Timing, gap: real, j: nat, g: nat, w: nat)
    requires start <= n < end <= |run| && Calling(cfg, run, start, end, x, gap, j, g, w)
    requires Beaten(cfg, run, n, x, j) && HeldAfter(cfg, run, n, j, g, w)
    ensures Beaten(cfg, run, n + 1, x, j)
  {
    hide Inv, Apply, Skips, After, Reports;
    var before, a := run[..n], run[n];
    var s := Exec(cfg, START, before);
    assert run[..n + 1] == before + [a] && (before + [a])[..n] == before;
    Reachable(cfg, before);
    ApplyMoves(cfg, s, a);
    var row' := Apply(cfg, s, a).db.jobs[j];
    assert RowMoved(cfg, s.db, Apply(cfg, s, a).db, j);
    forall k | 0 <= k < |x.calls| && Written(x.calls, k) && x.at[k] < n + 1
      ensures NowAt(cfg, run, x.at[k]) <= row'.heartbeat.value
    {
      if x.at[k] == n {
        ReportBeats(cfg, s, a, j, g, w, x.calls[k].percent);
      } else {
        WallWithin(x.epoch, x.clock(n), x.clock(x.at[k]), 0);
      }
    }
  }

  /**
   * Over a run: a worker that calls its reporter at most 599 seconds after its last call keeps its
   * claim until it gives it up itself. The reporter drops calls, but writes one a second after the last
   * write, so the heartbeat is never older than the 600 seconds after which others take a claim over.
   */
  lemma {:induction false} CallingKeepsClaim(cfg: Config, run: seq<Action>, start: nat, n: nat, end: nat, x: Timing, gap: real, j: nat, g: nat, w: nat)
    requires start <= n <= end <= |run| && HeldAfter(cfg, run, start, j, g, w)
    requires forall m :: 0 <= m <= start ==> !StaleAt(cfg, run[..m], j, g)
    requires Calling(cfg, run, start, end, x, gap, j, g, w) && gap <= 599.0
    ensures || (exists m :: start <= m < n && GivenUp(cfg, run, m, j, g, w))
            || (HeldAfter(cfg, run, n, j, g, w) && Beaten(cfg, run, n, x, j) && forall m :: 0 <= m <= n ==> !StaleAt(cfg, run[..m], j, g))
    decreases n
  {
    hide Exec, Apply, StaleAt, Holds, Calling, Beaten, Inv;
    if n == start {
      BeatenFirst(cfg, run, start, end, x, gap, j, g, w);
    } else {
      CallingKeepsClaim(cfg, run, start, n - 1, end, x, gap, j, g, w);
      if HeldAfter(cfg, run, n - 1, j, g, w) && Beaten(cfg, run, n - 1, x, j) && forall m :: 0 <= m <= n - 1 ==> !StaleAt(cfg, run[..m], j, g) {
        if !ActsAs(run[n - 1], w) {
          var before := run[..n - 1];
          forall m | 0 <= m <= |before| ensures !StaleAt(cfg, before[..m], j, g) {
            assert before[..m] == run[..m];
          }
          PunctualStep(cfg, before, run[n - 1], j, g, w);
          NextHeld(cfg, run, n - 1, j, g, w);
        }
        if HeldAfter(cfg, run, n, j, g, w) {
          BeatenStep(cfg, run, start, n - 1, end, x, gap, j, g, w);
          NotStale(cfg, run, start, n, end, x, gap, j, g, w);
        } else {
          assert GivenUp(cfg, run, n - 1, j, g, w);
        }
      }
    }
  }

  lemma BeatenFirst(cfg: Config, run: seq<Action>, start: nat, end: nat, x: Timing, gap: real, j: nat, g: nat, w: nat)
    requires start <= end <= |run| && Calling(cfg, run, start, end, x, gap, j, g, w) && HeldAfter(cfg, run, start, j, g, w)
    ensures Beaten(cfg, run, start, x, j)
  {
    hide Exec;
    Reachable(cfg, run[..start]);
  }
}
