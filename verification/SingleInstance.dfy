/**
 * The mutex around every periodic sweep: an expiring cache key, taken with `add` and released
 * with `delete`. The key says that somebody holds it, not who.
 */
module SingleInstance {
  import opened Common
  import opened Caching

  const KEY := "beatlock"

  /** `running` maps each instance inside the guarded call to the time it took the lock. */
  datatype Beat = Beat(cache: Cache, running: map<nat, nat>)

  const QUIET := Beat(Cache(0, map[]), map[])

  datatype Action =
    | Wait(seconds: nat)
    | Enter(id: nat)
    | Leave(id: nat)  // the `finally` clause
    | Die(id: nat)    // the process is gone: nothing is released

  /** Instance `id` calls the wrapped task; a call that finds the key returns at once. */
  function Begin(b: Beat, ttl: nat, id: nat): Beat {
    if id in b.running then b
    else
      var (cache, taken) := Add(b.cache, KEY, 1, ttl);
      if taken then Beat(cache, b.running[id := b.cache.now]) else b
  }

  function End(b: Beat, id: nat): Beat {
    if id in b.running then Beat(Delete(b.cache, KEY), b.running - {id}) else b
  }

  function Step(b: Beat, ttl: nat, a: Action): Beat {
    match a
    case Wait(d) => b.(cache := Pass(b.cache, d))
    case Enter(id) => Begin(b, ttl, id)
    case Leave(id) => End(b, id)
    case Die(id) => b.(running := b.running - {id})
  }

  function Exec(ttl: nat, run: seq<Action>): Beat
    decreases |run|
  {
    if run == [] then QUIET else Step(Exec(ttl, run[..|run| - 1]), ttl, run[|run| - 1])
  }

  // ---- The wrapper --------------------------------------------------------------------------------

  class BeatLock {
    var cache: Cache
    var running: map<nat, nat>

    function Contents(): Beat
      reads this
    {
      Beat(cache, running)
    }

    constructor ()
      ensures Contents() == QUIET
    {
      cache, running := Cache(0, map[]), map[];
    }

    method Acquire(ttl: nat, id: nat) returns (taken: bool)
      requires id !in running
      modifies this
      ensures Contents() == Begin(old(Contents()), ttl, id)
      ensures taken <==> id in running
    {
      var (next, added) := Add(cache, KEY, 1, ttl);
      taken := added;
      if taken {
        running := running[id := cache.now];
        cache := next;
      }
    }

    method Release(id: nat)
      requires id in running
      modifies this
      ensures Contents() == End(old(Contents()), id)
    {
      cache := Delete(cache, KEY);
      running := running - {id};
    }
  }

  // ---- Mutual exclusion -----------------------------------------------------------------------------

  predicate Overstayed(b: Beat, ttl: nat, id: nat) {
    id in b.running && b.running[id] + ttl <= b.cache.now
  }

  /** At most one instance runs. */
  ghost predicate Alone(b: Beat) {
    forall i, j :: i in b.running && j in b.running ==> i == j
  }

  /** The only running instance owns the key, until its time is over. */
  ghost predicate Held(b: Beat, ttl: nat) {
    && Alone(b)
    && (forall i :: i in b.running ==>
          && b.running[i] <= b.cache.now
          && KEY in b.cache.entries && b.cache.entries[KEY].expiresAt == b.running[i] + ttl)
  }

  /** The action lets a second instance in beside one that has overstayed its time to live. */
  ghost predicate Intrudes(b: Beat, ttl: nat, a: Action) {
    a.Enter? && a.id !in b.running && exists i :: Overstayed(b, ttl, i)
  }

  /** A start succeeds while instance `i` runs exactly if `i` overstayed. */
  lemma StartMeetsOverstayed(b: Beat, ttl: nat, id: nat, i: nat)
    requires Held(b, ttl) && i in b.running && id !in b.running
    ensures id in Begin(b, ttl, id).running <==> Overstayed(b, ttl, i)
  {
  }

  lemma StepHeld(b: Beat, ttl: nat, a: Action)
    requires Held(b, ttl)
    ensures Alone(Step(b, ttl, a)) <==> !Intrudes(b, ttl, a)
    ensures Alone(Step(b, ttl, a)) ==> Held(Step(b, ttl, a), ttl)
  {
    var b' := Step(b, ttl, a);
    if a.Enter? && a.id !in b.running {
      forall i | i in b.running ensures a.id in b'.running <==> Overstayed(b, ttl, i) {
        StartMeetsOverstayed(b, ttl, a.id, i);
      }
      if i :| Overstayed(b, ttl, i) {
        assert i in b'.running && a.id in b'.running;
      }
    }
  }

  /**
   * After an instance has left, the next call is served at once; after it died, the next call is served
   * exactly if the time to live is over.
   */
  lemma NextCall(b: Beat, ttl: nat, i: nat, j: nat, d: nat)
    requires Held(b, ttl) && i in b.running && j !in b.running
    ensures j in Step(Step(b, ttl, Leave(i)), ttl, Enter(j)).running
    ensures var later := Step(Step(b, ttl, Die(i)), ttl, Wait(d));
            j in Step(later, ttl, Enter(j)).running <==> b.cache.now + d >= b.running[i] + ttl
  {
  }

  /** At every moment of the run at most one instance is inside. */
  ghost predicate Exclusive(ttl: nat, run: seq<Action>) {
    forall n :: 0 <= n <= |run| ==> Alone(Exec(ttl, run[..n]))
  }

  /** No call arrives while an instance that overstayed its time to live is still inside. */
  ghost predicate OnTime(ttl: nat, run: seq<Action>) {
    forall n :: 0 <= n < |run| ==> !Intrudes(Exec(ttl, run[..n]), ttl, run[n])
  }

  lemma {:induction false} HeldThroughout(ttl: nat, run: seq<Action>, n: nat)
    requires n <= |run|
    requires Exclusive(ttl, run[..n]) || OnTime(ttl, run[..n])
    ensures Held(Exec(ttl, run[..n]), ttl) && Exclusive(ttl, run[..n]) && OnTime(ttl, run[..n])
    decreases n
  {
    if n == 0 {
      assert run[..0] == [];
    } else {
      var before, all := run[..n - 1], run[..n];
      assert all[..n - 1] == before && all[..n] == all;
      forall k | 0 <= k <= n - 1 ensures before[..k] == all[..k] {
      }
      if OnTime(ttl, all) {
        forall k | 0 <= k < n - 1 ensures !Intrudes(Exec(ttl, before[..k]), ttl, before[k]) {
          assert before[..k] == all[..k] && before[k] == all[k];
        }
      }
      HeldThroughout(ttl, run, n - 1);
      StepHeld(Exec(ttl, before), ttl, run[n - 1]);
      assert Exec(ttl, all) == Step(Exec(ttl, before), ttl, run[n - 1]);
      assert Alone(Exec(ttl, all)) by {
        if OnTime(ttl, all) {
          assert !Intrudes(Exec(ttl, all[..n - 1]), ttl, all[n - 1]);
        } else {
          assert Alone(Exec(ttl, all[..n]));
        }
      }
      forall k | 0 <= k < n ensures !Intrudes(Exec(ttl, all[..k]), ttl, all[k]) {
        if k < n - 1 {
          assert !Intrudes(Exec(ttl, before[..k]), ttl, before[k]);
        }
      }
      forall k | 0 <= k <= n ensures Alone(Exec(ttl, all[..k])) {
        if k <= n - 1 {
          assert Alone(Exec(ttl, before[..k]));
        }
      }
    }
  }

  /** The lock excludes exactly as long as nobody calls while an instance overstays. */
  lemma ExclusiveIffOnTime(ttl: nat, run: seq<Action>)
    ensures Exclusive(ttl, run) <==> OnTime(ttl, run)
  {
    assert run[..|run|] == run;
    if Exclusive(ttl, run) || OnTime(ttl, run) {
      HeldThroughout(ttl, run, |run|);
    }
  }

  /** In particular if every instance is out before its time to live is over. */
  lemma PunctualSweepsAreExclusive(ttl: nat, run: seq<Action>)
    requires forall n, i :: 0 <= n <= |run| ==> !Overstayed(Exec(ttl, run[..n]), ttl, i)
    ensures Exclusive(ttl, run)
  {
    ExclusiveIffOnTime(ttl, run);
  }

  /** Release carries no token: an instance that overstayed frees the key of its punctual successor. */
  lemma OverstayerFreesSuccessor(b: Beat, ttl: nat, i: nat, j: nat, k: nat)
    requires Held(b, ttl) && Overstayed(b, ttl, i) && ttl > 0
    requires j !in b.running && k !in b.running && j != k
    ensures var both := Begin(b, ttl, j);
            && !Overstayed(both, ttl, j)
            && Begin(both, ttl, k) == both
            && j in Begin(End(both, i), ttl, k).running && k in Begin(End(both, i), ttl, k).running
  {
  }
}
