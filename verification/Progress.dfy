/** `ProgressReporter`: a throttled, fenced progress write that doubles as the heartbeat. */
module Progress {
  import opened Common
  import opened Jobs
  import opened Database
  import opened Store

  /** The reporter's memory; times are readings of a monotonic clock in seconds. */
  datatype Throttle = Throttle(lastWrite: real, lastPercent: int)

  const UNUSED := Throttle(0.0, -1)

  function Clamped(percent: int): (p: nat)
    ensures p <= 100
    ensures 0 <= percent <= 100 ==> p == percent
    ensures percent < 0 ==> p == 0
    ensures percent > 100 ==> p == 100
  {
    if percent < 0 then 0 else if percent > 100 then 100 else percent
  }

  function Distance(a: int, b: int): nat {
    if a < b then b - a else a - b
  }

  /** The call is dropped. */
  predicate Skips(t: Throttle, minInterval: real, minDelta: int, now: real, percent: int) {
    && t.lastPercent >= 0
    && now - t.lastWrite < minInterval
    && Distance(Clamped(percent), t.lastPercent) < minDelta
    && Clamped(percent) < 100
  }

  function Next(t: Throttle, minInterval: real, minDelta: int, now: real, percent: int): Throttle {
    if Skips(t, minInterval, minDelta, now, percent) then t else Throttle(now, Clamped(percent))
  }

  class ProgressReporter {
    const tables: Tables
    const publicId: nat
    const job: Option<nat>
    const generation: Option<nat>
    const minInterval: real
    const minDelta: int
    var lastWrite: real
    var lastPercent: int

    function Memory(): Throttle
      reads this
    {
      Throttle(lastWrite, lastPercent)
    }

    constructor (tables: Tables, publicId: nat, job: Option<nat>, generation: Option<nat>, minInterval: real, minDelta: int)
      ensures Memory() == UNUSED
      ensures this.tables == tables && this.publicId == publicId && this.job == job && this.generation == generation
      ensures this.minInterval == minInterval && this.minDelta == minDelta
    {
      this.tables, this.publicId, this.job, this.generation := tables, publicId, job, generation;
      this.minInterval, this.minDelta := minInterval, minDelta;
      lastWrite, lastPercent := 0.0, -1;
    }

    /** The cache is written unfenced, the row only while the claim is held. */
    method Report(percent: int, now: real) returns (wrote: bool)
      modifies this, tables`jobs, tables`progress
      ensures Memory() == Next(old(Memory()), minInterval, minDelta, now, percent)
      ensures wrote == !Skips(old(Memory()), minInterval, minDelta, now, percent)
      ensures wrote <==> || old(lastPercent) < 0 || percent >= 100 || now >= old(lastWrite) + minInterval
                         || Clamped(percent) >= old(lastPercent) + minDelta || Clamped(percent) <= old(lastPercent) - minDelta
      ensures !wrote ==> tables.Contents() == old(tables.Contents()) && tables.progress == old(tables.progress)
      ensures wrote ==> tables.progress == old(tables.progress)[publicId := Clamped(percent)]
      ensures wrote && job.Some? && generation.Some? ==>
                tables.Contents() == Database.Progress(old(tables.Contents()), job.value, generation.value, Clamped(percent))
      ensures wrote && (job.None? || generation.None?) ==> tables.Contents() == old(tables.Contents())
    {
      var p := Clamped(percent);
      if lastPercent >= 0 && now - lastWrite < minInterval && Distance(p, lastPercent) < minDelta && p < 100 {
        return false;
      }
      tables.progress := tables.progress[publicId := p];
      if job.Some? && generation.Some? {
        tables.CoarseProgress(job.value, generation.value, p);
      }
      lastWrite, lastPercent := now, p;
      return true;
    }
  }

  // ---- How stale the heartbeat can get --------------------------------------------------------------

  datatype Call = Call(now: real, percent: int)

  function After(minInterval: real, minDelta: int, calls: seq<Call>): Throttle {
    if calls == [] then UNUSED
    else
      var c := calls[|calls| - 1];
      Next(After(minInterval, minDelta, calls[..|calls| - 1]), minInterval, minDelta, c.now, c.percent)
  }

  /**
   * A reporter that is sensitive to one percent, as those of `run_conversion` are, drops no change:
   * after every call the last written percentage is that of the call.
   */
  lemma LatestIsWritten(minInterval: real, calls: seq<Call>)
    requires calls != []
    ensures After(minInterval, 1, calls).lastPercent == Clamped(calls[|calls| - 1].percent)
  {
    var c, t := calls[|calls| - 1], After(minInterval, 1, calls[..|calls| - 1]);
    if Skips(t, minInterval, 1, c.now, c.percent) {
      assert Distance(Clamped(c.percent), t.lastPercent) == 0;
    }
  }

  /** The clock does not go back, and calls come at most `gap` apart. */
  predicate Spaced(calls: seq<Call>, gap: real) {
    forall i :: 0 < i < |calls| ==> calls[i - 1].now <= calls[i].now <= calls[i - 1].now + gap
  }

  /** Right after a call the last write is at most the throttle interval old. */
  lemma {:induction false} WrittenRecently(minInterval: real, minDelta: int, calls: seq<Call>)
    requires calls != [] && minInterval >= 0.0
    ensures var t := After(minInterval, minDelta, calls);
            t.lastPercent >= 0 && calls[|calls| - 1].now - t.lastWrite <= minInterval
  {
    if |calls| > 1 {
      WrittenRecently(minInterval, minDelta, calls[..|calls| - 1]);
    }
  }

  /**
   * Until the next call the heartbeat never gets older than the throttle interval and the gap
   * between calls together, whatever percentages are reported.
   */
  lemma HeartbeatAge(minInterval: real, minDelta: int, calls: seq<Call>, gap: real, k: nat, t: real)
    requires Spaced(calls, gap) && 0 < k < |calls| && minInterval >= 0.0
    requires calls[k - 1].now <= t <= calls[k].now
    ensures t - After(minInterval, minDelta, calls[..k]).lastWrite <= minInterval + gap
  {
    WrittenRecently(minInterval, minDelta, calls[..k]);
  }

  /** The throttle is tight: a steady report just inside the interval is dropped. */
  lemma SteadyReportIsDropped(minInterval: real, minDelta: int, at: real, later: real, percent: int)
    requires at <= later < at + minInterval && 0 <= percent < 100 && minDelta > 0
    ensures After(minInterval, minDelta, [Call(at, percent), Call(later, percent)]) == Throttle(at, percent)
  {
    var calls := [Call(at, percent), Call(later, percent)];
    assert calls[..1] == [Call(at, percent)];
    assert calls[..1][..0] == [];
    assert After(minInterval, minDelta, calls[..1]) == Throttle(at, percent);
  }
}
