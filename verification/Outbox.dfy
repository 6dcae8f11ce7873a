/**
 * The outbox relay: capped retries, dead letters first, then creation order, and a pass that
 * stops at the first failed delivery.
 *
 * Rows are kept in the order of their inserts. The relay sorts by `created_at`, which is stamped before
 * the insert commits, so the model assumes that stamps are in the order of the commits. `created` and
 * `calls` are history: every key ever inserted and every webhook call ever made.
 */
module Outbox {
  import opened Common

  datatype Kind = Ordinary(name: string) | DeadLetter

  /** `idempotency_key`; `DeadLetterOf(i)` stands for the key text derived from event `i`'s public id. */
  datatype Key = Named(text: string) | DeadLetterOf(id: nat)

  datatype Event = Event(id: nat, org: nat, kind: Kind, key: Key, attempts: nat,
                         deliveredAt: Option<nat>, failedAt: Option<nat>)
  {
    predicate Pending(max: nat) {
      deliveredAt.None? && failedAt.None? && attempts < max
    }
  }

  datatype Call = Call(id: nat, kind: Kind, ok: bool)

  datatype Box = Box(rows: seq<Event>, nextId: nat, created: seq<Key>, calls: seq<Call>)

  const NEW_BOX := Box([], 0, [], [])

  // ---- Statements -------------------------------------------------------------------------------

  function Find(rows: seq<Event>, key: Key): (found: Option<nat>)
    ensures found.Some? ==> found.value < |rows| && rows[found.value].key == key
    ensures found.None? ==> forall i :: 0 <= i < |rows| ==> rows[i].key != key
  {
    if rows == [] then None
    else if rows[|rows| - 1].key == key then Some(|rows| - 1)
    else Find(rows[..|rows| - 1], key)
  }

  datatype Inserted = Existing(id: nat) | Fresh(id: nat) | KeyTaken

  /** `get_or_create` on (organization, event type, key), where the key alone is unique. */
  function Enqueue(box: Box, org: nat, kind: Kind, key: Key): (Box, Inserted) {
    match Find(box.rows, key)
    case Some(i) =>
      if box.rows[i].org == org && box.rows[i].kind == kind then (box, Existing(box.rows[i].id)) else (box, KeyTaken)
    case None =>
      (box.(rows := box.rows + [Event(box.nextId, org, kind, key, 0, None, None)],
            nextId := box.nextId + 1, created := box.created + [key]),
       Fresh(box.nextId))
  }

  /** The oldest pending event of the given priority class. */
  function First(rows: seq<Event>, max: nat, dead: bool): (found: Option<nat>)
    ensures found.Some? ==> found.value < |rows| && rows[found.value].Pending(max)
                            && rows[found.value].kind.DeadLetter? == dead
    ensures forall i :: 0 <= i < |rows| && (found.Some? ==> i < found.value) ==>
              !(rows[i].Pending(max) && rows[i].kind.DeadLetter? == dead)
  {
    if rows == [] then None
    else
      var earlier := First(rows[..|rows| - 1], max, dead);
      if earlier.Some? then earlier
      else if rows[|rows| - 1].Pending(max) && rows[|rows| - 1].kind.DeadLetter? == dead then Some(|rows| - 1)
      else None
  }

  /** The event the relay tries next. */
  function Next(rows: seq<Event>, max: nat): Option<nat> {
    if First(rows, max, true).Some? then First(rows, max, true) else First(rows, max, false)
  }

  function Tried(e: Event): Event {
    e.(attempts := e.attempts + 1)
  }

  function Called(box: Box, i: nat, e: Event, ok: bool): Box
    requires i < |box.rows|
  {
    box.(rows := box.rows[i := e], calls := box.calls + [Call(e.id, e.kind, ok)])
  }

  /** `_emit_outbox_dead_letter`: a dead letter that fails is not reported by another one. */
  function EmitDeadLetter(box: Box, e: Event): Box {
    if e.kind.DeadLetter? then box else Enqueue(box, e.org, DeadLetter, DeadLetterOf(e.id)).0
  }

  /** One delivery attempt for row `i`, with the webhook's reply. */
  function Attempt(box: Box, max: nat, i: nat, now: nat, ok: bool): Box
    requires i < |box.rows|
  {
    var e := Tried(box.rows[i]);
    if ok then Called(box, i, e.(deliveredAt := Some(now)), true)
    else if e.attempts >= max then EmitDeadLetter(Called(box, i, e.(failedAt := Some(now)), false), e)
    else Called(box, i, e, false)
  }

  /** The delivery loop after `done` deliveries; `reply(k)` answers the call made after `k` deliveries. */
  function Pass(box: Box, max: nat, batch: nat, reply: nat -> bool, now: nat, done: nat): (Box, nat)
    decreases batch - done
  {
    if done >= batch || Next(box.rows, max).None? then (box, done)
    else
      var box' := Attempt(box, max, Next(box.rows, max).value, now, reply(done));
      if reply(done) then Pass(box', max, batch, reply, now, done + 1) else (box', done)
  }

  predicate Purgeable(e: Event, failed: bool, cutoff: nat) {
    if failed then e.failedAt.Some? && e.failedAt.value < cutoff
    else e.deliveredAt.Some? && e.deliveredAt.value < cutoff
  }

  /** The rows that `purge_failed_outbox_events` or `purge_delivered_outbox_events` leaves. */
  function Survivors(rows: seq<Event>, failed: bool, cutoff: nat): seq<Event> {
    if rows == [] then []
    else
      Survivors(rows[..|rows| - 1], failed, cutoff)
      + (if Purgeable(rows[|rows| - 1], failed, cutoff) then [] else [rows[|rows| - 1]])
  }

  /** What a purge at `cutoff` leaves, on the columns: all rows but those delivered, or failed, before it. */
  predicate Spared(e: Event, failed: bool, cutoff: nat) {
    if failed then e.failedAt == None || cutoff <= e.failedAt.value
    else e.deliveredAt == None || cutoff <= e.deliveredAt.value
  }

  lemma {:induction false} SurvivorsOf(rows: seq<Event>, failed: bool, cutoff: nat)
    ensures forall e :: e in Survivors(rows, failed, cutoff) <==> e in rows && Spared(e, failed, cutoff)
  {
    if rows != [] {
      var n := |rows| - 1;
      assert rows == rows[..n] + [rows[n]];
      SurvivorsOf(rows[..n], failed, cutoff);
    }
  }

  // ---- Runs ---------------------------------------------------------------------------------------

  datatype Op =
    | Post(org: nat, name: string, text: string)
    | RelayPass(batch: nat, reply: nat -> bool, now: nat)
    | Purge(failed: bool, cutoff: nat)

  function Step(box: Box, max: nat, op: Op): Box {
    match op
    case Post(org, name, text) => Enqueue(box, org, Ordinary(name), Named(text)).0
    case RelayPass(batch, reply, now) => Pass(box, max, batch, reply, now, 0).0
    case Purge(failed, cutoff) => box.(rows := Survivors(box.rows, failed, cutoff))
  }

  function Exec(box: Box, max: nat, ops: seq<Op>): Box
    decreases |ops|
  {
    if ops == [] then box else Step(Exec(box, max, ops[..|ops| - 1]), max, ops[|ops| - 1])
  }

  // ---- The mutable outbox -----------------------------------------------------------------------

  /** The table as the services update it. */
  class Relay {
    var rows: seq<Event>
    var nextId: nat
    var created: seq<Key>
    var calls: seq<Call>

    function Contents(): Box
      reads this
    {
      Box(rows, nextId, created, calls)
    }

    constructor ()
      ensures Contents() == NEW_BOX
    {
      rows, nextId, created, calls := [], 0, [], [];
    }

    method EnqueueOutbox(org: nat, kind: Kind, key: Key) returns (inserted: Inserted)
      modifies this
      ensures (Contents(), inserted) == Enqueue(old(Contents()), org, kind, key)
    {
      var found := Find(rows, key);
      if found.None? {
        inserted := Fresh(nextId);
        rows := rows + [Event(nextId, org, kind, key, 0, None, None)];
        nextId, created := nextId + 1, created + [key];
      } else if rows[found.value].org == org && rows[found.value].kind == kind {
        inserted := Existing(rows[found.value].id);
      } else {
        inserted := KeyTaken;
      }
    }

    method ReportDeadLetter(e: Event)
      modifies this
      ensures Contents() == EmitDeadLetter(old(Contents()), e)
    {
      if e.kind.DeadLetter? {
        return;
      }
      var _ := EnqueueOutbox(e.org, DeadLetter, DeadLetterOf(e.id));
    }

    /** `deliver_outbox_events`; `enabled` is the feature flag and a configured webhook. */
    method DeliverOutboxEvents(enabled: bool, max: nat, batch: nat, reply: nat -> bool, now: nat)
      returns (delivered: nat)
      modifies this
      ensures enabled ==> (Contents(), delivered) == Pass(old(Contents()), max, batch, reply, now, 0)
      ensures !enabled ==> Contents() == old(Contents()) && delivered == 0
    {
      delivered := 0;
      if !enabled {
        return;
      }
      while delivered < batch
        invariant delivered <= batch
        invariant Pass(Contents(), max, batch, reply, now, delivered) == Pass(old(Contents()), max, batch, reply, now, 0)
      {
        var next := Next(rows, max);
        if next.None? {
          return;
        }
        var i, e := next.value, rows[next.value];
        if !reply(delivered) {
          if e.attempts + 1 >= max {
            rows := rows[i := Tried(e).(failedAt := Some(now))];
            calls := calls + [Call(e.id, e.kind, false)];
            ReportDeadLetter(Tried(e));
          } else {
            rows := rows[i := Tried(e)];
            calls := calls + [Call(e.id, e.kind, false)];
          }
          return;
        }
        rows := rows[i := Tried(e).(deliveredAt := Some(now))];
        calls := calls + [Call(e.id, e.kind, true)];
        delivered := delivered + 1;
      }
    }

    method PurgeOutboxEvents(failed: bool, cutoff: nat) returns (deleted: nat)
      modifies this`rows
      ensures Contents() == old(Contents()).(rows := Survivors(old(rows), failed, cutoff))
      ensures deleted == |old(rows)| - |rows|
      ensures forall e :: e in rows <==> e in old(rows) && Spared(e, failed, cutoff)
    {
      SurvivorsOf(rows, failed, cutoff);
      var kept: seq<Event>, i := [], 0;
      deleted := 0;
      while i < |rows|
        invariant i <= |rows| && deleted == i - |kept|
        invariant kept == Survivors(rows[..i], failed, cutoff)
      {
        assert rows[..i + 1][..i] == rows[..i];
        if Purgeable(rows[i], failed, cutoff) {
          deleted := deleted + 1;
        } else {
          kept := kept + [rows[i]];
        }
        i := i + 1;
      }
      assert rows[..i] == rows;
      rows := kept;
    }
  }
}

/** What every run of the outbox keeps, what it costs, and in which order it delivers. */
module OutboxGuarantees {
  import opened Common
  import opened Outbox

  // ---- The row invariant --------------------------------------------------------------------------

  function Times(created: seq<Key>, key: Key): nat {
    multiset(created)[key]
  }

  function CallsTo(calls: seq<Call>, id: nat): nat {
    if calls == [] then 0
    else CallsTo(calls[..|calls| - 1], id) + (if calls[|calls| - 1].id == id then 1 else 0)
  }

  predicate EventOk(box: Box, max: nat, e: Event) {
    && e.id < box.nextId
    && !(e.deliveredAt.Some? && e.failedAt.Some?)
    && (e.deliveredAt.None? && e.failedAt.None? ==> e.attempts < max || (e.attempts == 0 && max == 0))
    && (e.failedAt.Some? ==> e.attempts == max)
    && (e.deliveredAt.Some? ==> 0 < e.attempts <= max)
    && (e.kind.DeadLetter? <==> e.key.DeadLetterOf?)
    && e.key in box.created
    && CallsTo(box.calls, e.id) == e.attempts
    && Times(box.created, DeadLetterOf(e.id)) == (if e.failedAt.Some? && e.kind.Ordinary? then 1 else 0)
  }

  /** Creation order. */
  ghost predicate Sorted(rows: seq<Event>) {
    forall i, j :: 0 <= i < j < |rows| ==> rows[i].id < rows[j].id
  }

  ghost predicate BoxOk(box: Box, max: nat) {
    && (forall i :: 0 <= i < |box.rows| ==> EventOk(box, max, box.rows[i]))
    && Sorted(box.rows)
    && (forall id :: id >= box.nextId ==> Times(box.created, DeadLetterOf(id)) == 0 && CallsTo(box.calls, id) == 0)
  }

  lemma EnqueueKeeps(box: Box, max: nat, org: nat, name: string, text: string)
    requires BoxOk(box, max)
    ensures BoxOk(Enqueue(box, org, Ordinary(name), Named(text)).0, max)
  {
    var box' := Enqueue(box, org, Ordinary(name), Named(text)).0;
    if Find(box.rows, Named(text)).None? {
      forall id ensures Times(box'.created, DeadLetterOf(id)) == Times(box.created, DeadLetterOf(id)) {
      }
      forall i | 0 <= i < |box.rows| ensures EventOk(box', max, box'.rows[i]) {
        assert EventOk(box, max, box.rows[i]);
      }
    }
  }

  /** The attempt's effect on the row itself. */
  lemma CalledKeeps(box: Box, max: nat, i: nat, e: Event, ok: bool)
    requires BoxOk(box, max) && i < |box.rows| && box.rows[i].Pending(max)
    requires e.id == box.rows[i].id && e.kind == box.rows[i].kind && e.key == box.rows[i].key
    requires EventOk(box.(calls := box.calls + [Call(e.id, e.kind, ok)]), max, e)
    ensures BoxOk(Called(box, i, e, ok), max)
  {
    var box' := Called(box, i, e, ok);
    assert box'.calls[..|box.calls|] == box.calls;
    forall k | 0 <= k < |box.rows| ensures EventOk(box', max, box'.rows[k]) {
      assert EventOk(box, max, box.rows[k]);
    }
  }

  function DeadLetterFor(box: Box, e: Event): Event {
    Event(box.nextId, e.org, DeadLetter, DeadLetterOf(e.id), 0, None, None)
  }

  /** A failed ordinary event commits with a dead letter: no row can hold its key already. */
  lemma FailShape(box: Box, max: nat, i: nat, now: nat)
    requires BoxOk(box, max) && i < |box.rows| && box.rows[i].Pending(max)
    requires box.rows[i].attempts + 1 >= max && box.rows[i].kind.Ordinary?
    ensures var e := Tried(box.rows[i]).(failedAt := Some(now));
            Attempt(box, max, i, now, false)
            == box.(rows := box.rows[i := e] + [DeadLetterFor(box, e)], nextId := box.nextId + 1,
                    created := box.created + [DeadLetterOf(e.id)], calls := box.calls + [Call(e.id, e.kind, false)])
  {
    var e := Tried(box.rows[i]).(failedAt := Some(now));
    assert EventOk(box, max, box.rows[i]);
    assert DeadLetterOf(e.id) !in multiset(box.created);
    var rows := box.rows[i := e];
    forall k | 0 <= k < |box.rows| ensures rows[k].key != DeadLetterOf(e.id) {
      assert EventOk(box, max, box.rows[k]);
    }
  }

  lemma FailKeeps(box: Box, max: nat, i: nat, now: nat)
    requires BoxOk(box, max) && i < |box.rows| && box.rows[i].Pending(max)
    requires box.rows[i].attempts + 1 >= max && box.rows[i].kind.Ordinary?
    ensures BoxOk(Attempt(box, max, i, now, false), max)
  {
    var id, box' := box.rows[i].id, Attempt(box, max, i, now, false);
    FailShape(box, max, i, now);
    assert EventOk(box, max, box.rows[i]);
    assert box'.calls[..|box.calls|] == box.calls;
    forall k ensures CallsTo(box'.calls, k) == CallsTo(box.calls, k) + (if k == id then 1 else 0) {
    }
    forall k ensures Times(box'.created, DeadLetterOf(k)) == Times(box.created, DeadLetterOf(k)) + (if k == id then 1 else 0) {
    }
    forall k | 0 <= k < |box'.rows| ensures EventOk(box', max, box'.rows[k]) {
      assert k < |box.rows| ==> EventOk(box, max, box.rows[k]);
    }
  }

  lemma AttemptKeeps(box: Box, max: nat, i: nat, now: nat, ok: bool)
    requires BoxOk(box, max) && i < |box.rows| && box.rows[i].Pending(max)
    ensures BoxOk(Attempt(box, max, i, now, ok), max)
  {
    var e := Tried(box.rows[i]);
    assert EventOk(box, max, box.rows[i]);
    var calls := box.calls + [Call(e.id, e.kind, ok)];
    assert calls[..|box.calls|] == box.calls;
    if ok {
      CalledKeeps(box, max, i, e.(deliveredAt := Some(now)), ok);
    } else if e.attempts < max {
      CalledKeeps(box, max, i, e, ok);
    } else if e.kind.Ordinary? {
      FailKeeps(box, max, i, now);
    } else {
      CalledKeeps(box, max, i, e.(failedAt := Some(now)), ok);
    }
  }

  lemma {:induction false} PassKeeps(box: Box, max: nat, batch: nat, reply: nat -> bool, now: nat, done: nat)
    requires BoxOk(box, max)
    ensures BoxOk(Pass(box, max, batch, reply, now, done).0, max)
    decreases batch - done
  {
    if done < batch && Next(box.rows, max).Some? {
      var i := Next(box.rows, max).value;
      AttemptKeeps(box, max, i, now, reply(done));
      if reply(done) {
        PassKeeps(Attempt(box, max, i, now, true), max, batch, reply, now, done + 1);
      }
    }
  }

  /** The purges keep the order of the others. */
  lemma {:induction false} SurvivorsSorted(rows: seq<Event>, failed: bool, cutoff: nat)
    requires Sorted(rows)
    ensures Sorted(Survivors(rows, failed, cutoff))
  {
    if rows != [] {
      var n := |rows| - 1;
      var kept := Survivors(rows[..n], failed, cutoff);
      SurvivorsSorted(rows[..n], failed, cutoff);
      SurvivorsOf(rows[..n], failed, cutoff);
      forall i | 0 <= i < |kept| ensures kept[i].id < rows[n].id {
        assert kept[i] in rows[..n];
      }
    }
  }

  lemma PurgeKeeps(box: Box, max: nat, failed: bool, cutoff: nat)
    requires BoxOk(box, max)
    ensures BoxOk(box.(rows := Survivors(box.rows, failed, cutoff)), max)
  {
    SurvivorsOf(box.rows, failed, cutoff);
    SurvivorsSorted(box.rows, failed, cutoff);
    var box' := box.(rows := Survivors(box.rows, failed, cutoff));
    forall i | 0 <= i < |box'.rows| ensures EventOk(box', max, box'.rows[i]) {
      assert box'.rows[i] in box.rows;
      assert forall e :: e in box.rows ==> EventOk(box, max, e);
    }
  }

  lemma StepKeeps(box: Box, max: nat, op: Op)
    requires BoxOk(box, max)
    ensures BoxOk(Step(box, max, op), max)
  {
    match op
    case Post(org, name, text) => EnqueueKeeps(box, max, org, name, text);
    case RelayPass(batch, reply, now) => PassKeeps(box, max, batch, reply, now, 0);
    case Purge(failed, cutoff) => PurgeKeeps(box, max, failed, cutoff);
  }

  /**
   * In every reachable state: no row is both delivered and failed, an unstamped row has attempts
   * left, a failed one has none, the attempts are the calls made, and a failed ordinary row has
   * exactly one dead letter while no other row has any.
   */
  lemma {:induction false} RowsKeepInvariant(box: Box, max: nat, ops: seq<Op>)
    requires BoxOk(box, max)
    ensures BoxOk(Exec(box, max, ops), max)
    decreases |ops|
  {
    if ops != [] {
      RowsKeepInvariant(box, max, ops[..|ops| - 1]);
      StepKeeps(Exec(box, max, ops[..|ops| - 1]), max, ops[|ops| - 1]);
    }
  }

  // ---- Potential ------------------------------------------------------------------------------------

  /** The calls that event `e` can still cost, if it can be served before ordinary event `bound`. */
  function Load(e: Event, max: nat, bound: nat): nat {
    if !e.Pending(max) then 0
    else if e.kind.DeadLetter? then max - e.attempts
    else if e.id < bound then max - e.attempts + max
    else 0
  }

  /** The potential of everything that the relay may serve before ordinary event `bound`. */
  function Ahead(rows: seq<Event>, max: nat, bound: nat): nat {
    if rows == [] then 0 else Ahead(rows[..|rows| - 1], max, bound) + Load(rows[|rows| - 1], max, bound)
  }

  lemma {:induction false} AheadPut(rows: seq<Event>, max: nat, bound: nat, i: nat, e: Event)
    requires i < |rows|
    ensures Ahead(rows[i := e], max, bound) == Ahead(rows, max, bound) - Load(rows[i], max, bound) + Load(e, max, bound)
  {
    var n := |rows| - 1;
    if i < n {
      assert rows[i := e][..n] == rows[..n][i := e];
      AheadPut(rows[..n], max, bound, i, e);
    } else {
      assert rows[i := e][..n] == rows[..n];
    }
  }

  lemma AheadAppend(rows: seq<Event>, max: nat, bound: nat, e: Event)
    ensures Ahead(rows + [e], max, bound) == Ahead(rows, max, bound) + Load(e, max, bound)
  {
    assert (rows + [e])[..|rows|] == rows;
  }

  /** Finished rows weigh nothing. */
  lemma {:induction false} AheadPurge(rows: seq<Event>, max: nat, bound: nat, failed: bool, cutoff: nat)
    ensures Ahead(Survivors(rows, failed, cutoff), max, bound) == Ahead(rows, max, bound)
  {
    if rows != [] {
      var n := |rows| - 1;
      AheadPurge(rows[..n], max, bound, failed, cutoff);
      if !Purgeable(rows[n], failed, cutoff) {
        AheadAppend(Survivors(rows[..n], failed, cutoff), max, bound, rows[n]);
      } else {
        assert Survivors(rows, failed, cutoff) == Survivors(rows[..n], failed, cutoff);
      }
    }
  }

  lemma {:induction false} AheadOfNobody(rows: seq<Event>, max: nat, bound: nat)
    requires forall i :: 0 <= i < |rows| ==> rows[i].id < bound
    ensures Ahead(rows, max, bound + 1) == Ahead(rows, max, bound)
  {
    if rows != [] {
      AheadOfNobody(rows[..|rows| - 1], max, bound);
    }
  }

  /** Every call to an event that counts lowers the potential, even when it makes a dead letter. */
  lemma AttemptSpends(box: Box, max: nat, i: nat, now: nat, ok: bool, bound: nat)
    requires BoxOk(box, max) && i < |box.rows| && box.rows[i].Pending(max)
    requires box.rows[i].kind.DeadLetter? || box.rows[i].id < bound
    ensures Ahead(Attempt(box, max, i, now, ok).rows, max, bound) + 1 <= Ahead(box.rows, max, bound)
    ensures |Attempt(box, max, i, now, ok).calls| == |box.calls| + 1
  {
    var e := Tried(box.rows[i]);
    AheadPut(box.rows, max, bound, i, e);
    AheadPut(box.rows, max, bound, i, e.(deliveredAt := Some(now)));
    AheadPut(box.rows, max, bound, i, e.(failedAt := Some(now)));
    if !ok && e.attempts >= max && e.kind.Ordinary? {
      FailShape(box, max, i, now);
      AheadAppend(box.rows[i := e.(failedAt := Some(now))], max, bound, DeadLetterFor(box, e));
    }
  }

  // ---- Termination ----------------------------------------------------------------------------------

  /** Ordinary events ever created. */
  function Born(created: seq<Key>): nat {
    if created == [] then 0
    else Born(created[..|created| - 1]) + (if created[|created| - 1].Named? then 1 else 0)
  }

  /** Calls made and calls still possible. */
  function Cost(box: Box, max: nat): nat {
    |box.calls| + Ahead(box.rows, max, box.nextId)
  }

  /** A final failure: the dead letter's calls were paid for by its event. */
  lemma FailCost(box: Box, max: nat, i: nat, now: nat)
    requires BoxOk(box, max) && i < |box.rows| && box.rows[i].Pending(max)
    requires box.rows[i].attempts + 1 >= max && box.rows[i].kind.Ordinary?
    ensures Cost(Attempt(box, max, i, now, false), max) <= Cost(box, max)
    ensures Born(Attempt(box, max, i, now, false).created) == Born(box.created)
  {
    var box' := Attempt(box, max, i, now, false);
    FailShape(box, max, i, now);
    assert box'.created[..|box.created|] == box.created;
    forall k | 0 <= k < |box.rows| ensures box.rows[k].id < box.nextId {
      assert EventOk(box, max, box.rows[k]);
    }
    AttemptSpends(box, max, i, now, false, box'.nextId);
    AheadOfNobody(box.rows, max, box.nextId);
  }

  lemma AttemptCost(box: Box, max: nat, i: nat, now: nat, ok: bool)
    requires BoxOk(box, max) && i < |box.rows| && box.rows[i].Pending(max)
    ensures Cost(Attempt(box, max, i, now, ok), max) <= Cost(box, max)
    ensures Born(Attempt(box, max, i, now, ok).created) == Born(box.created)
  {
    if !ok && box.rows[i].attempts + 1 >= max && box.rows[i].kind.Ordinary? {
      FailCost(box, max, i, now);
    } else {
      assert EventOk(box, max, box.rows[i]);
      AttemptSpends(box, max, i, now, ok, box.nextId);
    }
  }

  lemma {:induction false} PassCost(box: Box, max: nat, batch: nat, reply: nat -> bool, now: nat, done: nat)
    requires BoxOk(box, max)
    ensures Cost(Pass(box, max, batch, reply, now, done).0, max) <= Cost(box, max)
    ensures Born(Pass(box, max, batch, reply, now, done).0.created) == Born(box.created)
    decreases batch - done
  {
    if done < batch && Next(box.rows, max).Some? {
      var i := Next(box.rows, max).value;
      AttemptKeeps(box, max, i, now, reply(done));
      AttemptCost(box, max, i, now, reply(done));
      if reply(done) {
        PassCost(Attempt(box, max, i, now, true), max, batch, reply, now, done + 1);
      }
    }
  }

  lemma OneMore(unit: nat, n: nat)
    ensures unit * (n + 1) == unit * n + unit
  {
  }

  /** A new ordinary event adds its own allowance. */
  lemma PostAdds(box: Box, max: nat, org: nat, name: string, text: string)
    requires BoxOk(box, max)
    ensures var box' := Enqueue(box, org, Ordinary(name), Named(text)).0;
            || box' == box
            || (Cost(box', max) <= Cost(box, max) + 2 * max && Born(box'.created) == Born(box.created) + 1)
  {
    var box' := Enqueue(box, org, Ordinary(name), Named(text)).0;
    if Find(box.rows, Named(text)).None? {
      forall k | 0 <= k < |box.rows| ensures box.rows[k].id < box.nextId {
        assert EventOk(box, max, box.rows[k]);
      }
      hide BoxOk, EventOk;
      AheadOfNobody(box.rows, max, box.nextId);
      AheadAppend(box.rows, max, box'.nextId, box'.rows[|box.rows|]);
      assert box'.created[..|box.created|] == box.created;
    }
  }

  lemma PostCost(box: Box, max: nat, org: nat, name: string, text: string)
    requires BoxOk(box, max) && Cost(box, max) <= 2 * max * Born(box.created)
    ensures var box' := Enqueue(box, org, Ordinary(name), Named(text)).0;
            Cost(box', max) <= 2 * max * Born(box'.created)
  {
    hide BoxOk, Cost, Born, Enqueue;
    PostAdds(box, max, org, name, text);
    OneMore(2 * max, Born(box.created));
  }

  /** Whatever the webhook answers, `n` ordinary events cost at most `2 * max * n` calls in all. */
  lemma {:induction false} DeliveryTerminates(max: nat, ops: seq<Op>)
    ensures var box := Exec(NEW_BOX, max, ops);
            && Cost(box, max) <= 2 * max * Born(box.created)
            && |box.calls| <= 2 * max * Born(box.created)
    decreases |ops|
  {
    if ops != [] {
      var box, op := Exec(NEW_BOX, max, ops[..|ops| - 1]), ops[|ops| - 1];
      DeliveryTerminates(max, ops[..|ops| - 1]);
      RowsKeepInvariant(NEW_BOX, max, ops[..|ops| - 1]);
      match op
      case Post(org, name, text) => PostCost(box, max, org, name, text);
      case RelayPass(batch, reply, now) => PassCost(box, max, batch, reply, now, 0);
      case Purge(failed, cutoff) => AheadPurge(box.rows, max, box.nextId, failed, cutoff);
    }
  }

  // ---- One pass ---------------------------------------------------------------------------------------

  /** The calls from position `from` on: `n` deliveries, then a failed one if there is one more. */
  predicate Deliveries(calls: seq<Call>, from: nat, n: nat) {
    && from + n <= |calls| <= from + n + 1
    && (forall k :: from <= k < from + n ==> calls[k].ok)
    && (|calls| == from + n + 1 ==> !calls[from + n].ok)
  }

  lemma AttemptCalls(box: Box, max: nat, i: nat, now: nat, ok: bool)
    requires i < |box.rows|
    ensures Attempt(box, max, i, now, ok).calls == box.calls + [Call(box.rows[i].id, box.rows[i].kind, ok)]
  {
  }

  lemma OneMoreDelivery(calls: seq<Call>, from: nat, n: nat)
    requires Deliveries(calls, from + 1, n) && calls[from].ok
    ensures Deliveries(calls, from, n + 1)
  {
  }

  /**
   * A pass counts its deliveries, makes at most `batch` of them, and ends for one of three
   * reasons: the batch is full, a delivery failed, or nothing is pending.
   */
  lemma {:induction false} PassStops(box: Box, max: nat, batch: nat, reply: nat -> bool, now: nat, done: nat)
    requires done <= batch
    ensures var (box', n) := Pass(box, max, batch, reply, now, done);
            && done <= n <= batch
            && Deliveries(box'.calls, |box.calls|, n - done)
            && (n == batch || |box'.calls| == |box.calls| + n - done + 1 || Next(box'.rows, max).None?)
    decreases batch - done
  {
    hide Attempt, First;
    if done < batch && Next(box.rows, max).Some? {
      var i := Next(box.rows, max).value;
      var mid := Attempt(box, max, i, now, reply(done));
      AttemptCalls(box, max, i, now, reply(done));
      if reply(done) {
        PassStops(mid, max, batch, reply, now, done + 1);
        CallsGrow(mid, max, batch, reply, now, done + 1);
        var (box', n) := Pass(mid, max, batch, reply, now, done + 1);
        assert box'.calls[|box.calls|] == mid.calls[|box.calls|];
        OneMoreDelivery(box'.calls, |box.calls|, n - done - 1);
      }
    }
  }

  // ---- Order ----------------------------------------------------------------------------------------

  /** Ordinary events are called in creation order, and none is called again after a later one. */
  ghost predicate InOrder(calls: seq<Call>) {
    forall p, q :: 0 <= p < q < |calls| && calls[p].kind.Ordinary? && calls[q].kind.Ordinary? ==> calls[p].id <= calls[q].id
  }

  /** Whatever is still pending was created no earlier than anything already called. */
  ghost predicate NothingSkipped(box: Box, max: nat) {
    forall p, i ::
      (&& 0 <= p < |box.calls| && 0 <= i < |box.rows| && box.calls[p].kind.Ordinary?
       && box.rows[i].kind.Ordinary? && box.rows[i].Pending(max)) ==>
        box.calls[p].id <= box.rows[i].id
  }

  /** Called ids are below the next one. */
  ghost predicate CallsKnown(box: Box) {
    forall p :: 0 <= p < |box.calls| ==> box.calls[p].id < box.nextId
  }

  ghost predicate OrderOk(box: Box, max: nat) {
    InOrder(box.calls) && NothingSkipped(box, max) && CallsKnown(box)
  }

  /** The relay calls an ordinary event only when every earlier ordinary event is settled. */
  lemma NextIsOldest(box: Box, max: nat, i: nat)
    requires Next(box.rows, max) == Some(i) && box.rows[i].kind.Ordinary?
    ensures forall k :: 0 <= k < i && box.rows[k].kind.Ordinary? ==> !box.rows[k].Pending(max)
    ensures forall k :: 0 <= k < |box.rows| && box.rows[k].kind.DeadLetter? ==> !box.rows[k].Pending(max)
  {
  }

  /** An attempt makes no ordinary event pending, and its one call is for row `i`. */
  lemma AttemptShape(box: Box, max: nat, i: nat, now: nat, ok: bool)
    requires BoxOk(box, max) && i < |box.rows| && box.rows[i].Pending(max)
    ensures var box' := Attempt(box, max, i, now, ok);
            && box'.calls == box.calls + [Call(box.rows[i].id, box.rows[i].kind, ok)]
            && box.nextId <= box'.nextId && |box.rows| <= |box'.rows|
            && (forall k :: 0 <= k < |box.rows| && k != i ==> box'.rows[k] == box.rows[k])
            && box'.rows[i].id == box.rows[i].id && box'.rows[i].kind == box.rows[i].kind
            && (forall k :: |box.rows| <= k < |box'.rows| ==> box'.rows[k].kind.DeadLetter?)
  {
    if !ok && box.rows[i].attempts + 1 >= max && box.rows[i].kind.Ordinary? {
      FailShape(box, max, i, now);
    }
  }

  lemma AttemptOrder(box: Box, max: nat, i: nat, now: nat, ok: bool)
    requires BoxOk(box, max) && OrderOk(box, max) && Next(box.rows, max) == Some(i)
    ensures OrderOk(Attempt(box, max, i, now, ok), max)
  {
    AttemptShape(box, max, i, now, ok);
    assert EventOk(box, max, box.rows[i]);
    var box' := Attempt(box, max, i, now, ok);
    forall k | 0 <= k < |box'.rows| && box'.rows[k].kind.Ordinary? && box'.rows[k].Pending(max)
      ensures k < |box.rows| && box.rows[k].kind.Ordinary? && box'.rows[k].id == box.rows[k].id
      ensures box.rows[k].Pending(max)
      ensures box.rows[i].kind.Ordinary? ==> box.rows[i].id <= box'.rows[k].id
    {
    }
  }

  lemma {:induction false} PassOrder(box: Box, max: nat, batch: nat, reply: nat -> bool, now: nat, done: nat)
    requires BoxOk(box, max) && OrderOk(box, max)
    ensures OrderOk(Pass(box, max, batch, reply, now, done).0, max)
    decreases batch - done
  {
    if done < batch && Next(box.rows, max).Some? {
      var i := Next(box.rows, max).value;
      AttemptKeeps(box, max, i, now, reply(done));
      AttemptOrder(box, max, i, now, reply(done));
      if reply(done) {
        PassOrder(Attempt(box, max, i, now, true), max, batch, reply, now, done + 1);
      }
    }
  }

  lemma StepOrder(box: Box, max: nat, op: Op)
    requires BoxOk(box, max) && OrderOk(box, max)
    ensures OrderOk(Step(box, max, op), max)
  {
    match op
    case Post(org, name, text) =>
      forall i | 0 <= i < |box.rows| ensures box.rows[i].id < box.nextId {
        assert EventOk(box, max, box.rows[i]);
      }
    case RelayPass(batch, reply, now) => PassOrder(box, max, batch, reply, now, 0);
    case Purge(failed, cutoff) =>
      SurvivorsOf(box.rows, failed, cutoff);
      var kept := Survivors(box.rows, failed, cutoff);
      forall i | 0 <= i < |kept| ensures exists k :: 0 <= k < |box.rows| && box.rows[k] == kept[i] {
        assert kept[i] in kept;
      }
  }

  /** Over every run: all calls for an ordinary event come before every call for a later one. */
  lemma {:induction false} DeliveredInOrder(max: nat, ops: seq<Op>)
    ensures OrderOk(Exec(NEW_BOX, max, ops), max)
    decreases |ops|
  {
    if ops != [] {
      DeliveredInOrder(max, ops[..|ops| - 1]);
      RowsKeepInvariant(NEW_BOX, max, ops[..|ops| - 1]);
      StepOrder(Exec(NEW_BOX, max, ops[..|ops| - 1]), max, ops[|ops| - 1]);
    }
  }

  // ---- No starvation ----------------------------------------------------------------------------------

  predicate Waits(rows: seq<Event>, max: nat, id: nat) {
    exists i :: 0 <= i < |rows| && rows[i].id == id && rows[i].kind.Ordinary? && rows[i].Pending(max)
  }

  /** Some call after the first `from` was for event `id`. */
  predicate CalledSince(calls: seq<Call>, from: nat, id: nat) {
    exists p :: from <= p < |calls| && calls[p].id == id
  }

  /** From `box` to `box'` event `id` was not called, and every call made lowered what is ahead of it. */
  predicate Nearer(box: Box, box': Box, max: nat, id: nat) {
    && Waits(box'.rows, max, id)
    && box.calls <= box'.calls
    && |box'.calls| - |box.calls| + Ahead(box'.rows, max, id) <= Ahead(box.rows, max, id)
  }

  lemma AttemptNears(box: Box, max: nat, i: nat, now: nat, ok: bool, id: nat)
    requires BoxOk(box, max) && Next(box.rows, max) == Some(i) && Waits(box.rows, max, id)
    ensures var box' := Attempt(box, max, i, now, ok);
            box.calls < box'.calls && (CalledSince(box'.calls, |box.calls|, id) || Nearer(box, box', max, id))
  {
    var box' := Attempt(box, max, i, now, ok);
    AttemptShape(box, max, i, now, ok);
    if box.rows[i].id == id {
      assert box'.calls[|box.calls|].id == id;
    } else {
      var k :| 0 <= k < |box.rows| && box.rows[k].id == id && box.rows[k].kind.Ordinary? && box.rows[k].Pending(max);
      assert box'.rows[k] == box.rows[k];
      AttemptSpends(box, max, i, now, ok, id);
    }
  }

  lemma {:induction false} PassNears(box: Box, max: nat, batch: nat, reply: nat -> bool, now: nat, done: nat, id: nat)
    requires BoxOk(box, max) && Waits(box.rows, max, id)
    ensures var box' := Pass(box, max, batch, reply, now, done).0;
            && box.calls <= box'.calls
            && (done < batch ==> |box.calls| < |box'.calls|)
            && (CalledSince(box'.calls, |box.calls|, id) || Nearer(box, box', max, id))
    decreases batch - done
  {
    if done < batch {
      var i := Next(box.rows, max).value;
      AttemptKeeps(box, max, i, now, reply(done));
      AttemptNears(box, max, i, now, reply(done), id);
      var mid := Attempt(box, max, i, now, reply(done));
      if reply(done) {
        if Waits(mid.rows, max, id) {
          PassNears(mid, max, batch, reply, now, done + 1, id);
        } else {
          CallsGrow(mid, max, batch, reply, now, done + 1);
        }
        var box' := Pass(box, max, batch, reply, now, done).0;
        if CalledSince(mid.calls, |box.calls|, id) {
          var p :| |box.calls| <= p < |mid.calls| && mid.calls[p].id == id;
          assert box'.calls[p].id == id;
        } else if CalledSince(box'.calls, |mid.calls|, id) {
          var p :| |mid.calls| <= p < |box'.calls| && box'.calls[p].id == id;
          assert box'.calls[p].id == id;
        }
      }
    }
  }

  lemma {:induction false} CallsGrow(box: Box, max: nat, batch: nat, reply: nat -> bool, now: nat, done: nat)
    ensures box.calls <= Pass(box, max, batch, reply, now, done).0.calls
    decreases batch - done
  {
    if done < batch && Next(box.rows, max).Some? {
      var i := Next(box.rows, max).value;
      var mid := Attempt(box, max, i, now, reply(done));
      assert box.calls <= mid.calls;
      if reply(done) {
        CallsGrow(mid, max, batch, reply, now, done + 1);
      }
    }
  }

  /** The passes of a run that may make at least one call. */
  function Passes(ops: seq<Op>): nat {
    if ops == [] then 0
    else Passes(ops[..|ops| - 1])
         + (if ops[|ops| - 1].RelayPass? && ops[|ops| - 1].batch > 0 then 1 else 0)
  }

  lemma PostNears(box: Box, max: nat, org: nat, name: string, text: string, id: nat)
    requires BoxOk(box, max) && Waits(box.rows, max, id)
    ensures Nearer(box, Enqueue(box, org, Ordinary(name), Named(text)).0, max, id)
  {
    var box' := Enqueue(box, org, Ordinary(name), Named(text)).0;
    var k :| 0 <= k < |box.rows| && box.rows[k].id == id && box.rows[k].kind.Ordinary? && box.rows[k].Pending(max);
    assert box'.rows[k] == box.rows[k];
    assert EventOk(box, max, box.rows[k]);
    if Find(box.rows, Named(text)).None? {
      AheadAppend(box.rows, max, id, box'.rows[|box.rows|]);
    }
  }

  lemma PurgeNears(box: Box, max: nat, failed: bool, cutoff: nat, id: nat)
    requires Waits(box.rows, max, id)
    ensures Nearer(box, box.(rows := Survivors(box.rows, failed, cutoff)), max, id)
  {
    var k :| 0 <= k < |box.rows| && box.rows[k].id == id && box.rows[k].kind.Ordinary? && box.rows[k].Pending(max);
    SurvivorsOf(box.rows, failed, cutoff);
    AheadPurge(box.rows, max, id, failed, cutoff);
    assert box.rows[k] in Survivors(box.rows, failed, cutoff);
  }

  lemma StepNears(box: Box, max: nat, op: Op, id: nat)
    requires BoxOk(box, max) && Waits(box.rows, max, id)
    ensures var box' := Step(box, max, op);
            && box.calls <= box'.calls
            && (op.RelayPass? && op.batch > 0 ==> |box.calls| < |box'.calls|)
            && (CalledSince(box'.calls, |box.calls|, id) || Nearer(box, box', max, id))
  {
    match op
    case Post(org, name, text) => PostNears(box, max, org, name, text, id);
    case RelayPass(batch, reply, now) => PassNears(box, max, batch, reply, now, 0, id);
    case Purge(failed, cutoff) => PurgeNears(box, max, failed, cutoff, id);
  }

  /**
   * A waiting event is called after at most as many passes as the potential ahead of it allows,
   * although dead letters jump the queue and new events keep arriving.
   */
  lemma {:induction false} NotStarved(box: Box, max: nat, id: nat, ops: seq<Op>)
    requires BoxOk(box, max) && Waits(box.rows, max, id)
    ensures var box' := Exec(box, max, ops);
            && box.calls <= box'.calls
            && (CalledSince(box'.calls, |box.calls|, id)
                || (Nearer(box, box', max, id) && Passes(ops) <= |box'.calls| - |box.calls|))
    ensures Passes(ops) > Ahead(box.rows, max, id) ==> CalledSince(Exec(box, max, ops).calls, |box.calls|, id)
    decreases |ops|
  {
    if ops != [] {
      var before, op := ops[..|ops| - 1], ops[|ops| - 1];
      var mid := Exec(box, max, before);
      var box' := Step(mid, max, op);
      NotStarved(box, max, id, before);
      RowsKeepInvariant(box, max, before);
      if CalledSince(mid.calls, |box.calls|, id) {
        StepCallsGrow(mid, max, op);
        var p :| |box.calls| <= p < |mid.calls| && mid.calls[p].id == id;
        assert box'.calls[p].id == id;
      } else {
        StepNears(mid, max, op, id);
        if CalledSince(box'.calls, |mid.calls|, id) {
          var p :| |mid.calls| <= p < |box'.calls| && box'.calls[p].id == id;
          assert box'.calls[p].id == id;
        }
      }
    }
  }

  lemma StepCallsGrow(box: Box, max: nat, op: Op)
    ensures box.calls <= Step(box, max, op).calls
  {
    if op.RelayPass? {
      CallsGrow(box, max, op.batch, op.reply, op.now, 0);
    }
  }

  // ---- Retention of rows ------------------------------------------------------------------------------

  /** Delivered, or failed for good, at `t`. */
  predicate FinishedAt(e: Event, failed: bool, t: nat) {
    if failed then e.failedAt == Some(t) && e.deliveredAt == None else e.deliveredAt == Some(t) && e.failedAt == None
  }

  /** The attempt stamps the row with its time when it delivers the event, or fails for the last time, and else not. */
  lemma AttemptStamps(box: Box, max: nat, i: nat, now: nat, ok: bool)
    requires BoxOk(box, max) && i < |box.rows| && box.rows[i].Pending(max)
    ensures var e, e' := box.rows[i], Attempt(box, max, i, now, ok).rows[i];
            && e'.id == e.id && e'.attempts == e.attempts + 1
            && (if ok then FinishedAt(e', false, now)
                else if e.attempts + 1 == max then FinishedAt(e', true, now)
                else e'.deliveredAt == None && e'.failedAt == None)
  {
    if !ok && box.rows[i].attempts + 1 >= max && box.rows[i].kind.Ordinary? {
      FailShape(box, max, i, now);
    }
  }

  ghost predicate Known(rows: seq<Event>, id: nat) {
    exists i :: 0 <= i < |rows| && rows[i].id == id
  }

  /** A finished row stays as it is; a row once gone does not come back. */
  ghost predicate Settled(box: Box, box': Box) {
    && box.nextId <= box'.nextId
    && (forall e :: e in box.rows && (e.deliveredAt.Some? || e.failedAt.Some?) ==> e in box'.rows)
    && (forall id: nat :: id < box.nextId && !Known(box.rows, id) ==> !Known(box'.rows, id))
  }

  lemma SettledChain(a: Box, b: Box, c: Box)
    requires Settled(a, b) && Settled(b, c)
    ensures Settled(a, c)
  {
  }

  lemma AttemptSettles(box: Box, max: nat, i: nat, now: nat, ok: bool)
    requires BoxOk(box, max) && i < |box.rows| && box.rows[i].Pending(max)
    ensures Settled(box, Attempt(box, max, i, now, ok))
  {
    var box' := Attempt(box, max, i, now, ok);
    AttemptShape(box, max, i, now, ok);
    forall e | e in box.rows && (e.deliveredAt.Some? || e.failedAt.Some?) ensures e in box'.rows {
      var k :| 0 <= k < |box.rows| && box.rows[k] == e;
      assert box'.rows[k] == e;
    }
    forall id: nat | id < box.nextId && !Known(box.rows, id) ensures !Known(box'.rows, id) {
      NewRowsAreNew(box, max, i, now, ok);
      forall k | 0 <= k < |box'.rows| ensures box'.rows[k].id != id {
        assert k < |box.rows| ==> box.rows[k].id == box'.rows[k].id;
      }
    }
  }

  lemma NewRowsAreNew(box: Box, max: nat, i: nat, now: nat, ok: bool)
    requires BoxOk(box, max) && i < |box.rows| && box.rows[i].Pending(max)
    ensures var rows' := Attempt(box, max, i, now, ok).rows;
            forall k :: |box.rows| <= k < |rows'| ==> rows'[k].id >= box.nextId
  {
    if !ok && box.rows[i].attempts + 1 >= max && box.rows[i].kind.Ordinary? {
      FailShape(box, max, i, now);
    }
  }

  lemma {:induction false} PassSettles(box: Box, max: nat, batch: nat, reply: nat -> bool, now: nat, done: nat)
    requires BoxOk(box, max)
    ensures Settled(box, Pass(box, max, batch, reply, now, done).0)
    decreases batch - done
  {
    hide Settled, BoxOk, Attempt;
    if done < batch && Next(box.rows, max).Some? {
      var i := Next(box.rows, max).value;
      var mid := Attempt(box, max, i, now, reply(done));
      AttemptKeeps(box, max, i, now, reply(done));
      AttemptSettles(box, max, i, now, reply(done));
      if reply(done) {
        PassSettles(mid, max, batch, reply, now, done + 1);
        SettledChain(box, mid, Pass(mid, max, batch, reply, now, done + 1).0);
      }
    } else {
      SettledSelf(box);
    }
  }

  lemma SettledSelf(box: Box)
    ensures Settled(box, box)
  {
  }

  lemma PostSettles(box: Box, org: nat, name: string, text: string)
    ensures Settled(box, Enqueue(box, org, Ordinary(name), Named(text)).0)
  {
  }

  /** The purge removes row `e`. */
  predicate Removes(op: Op, e: Event) {
    op.Purge? && !Spared(e, op.failed, op.cutoff)
  }

  lemma StepSpares(box: Box, max: nat, op: Op, e: Event)
    requires BoxOk(box, max) && e.id < box.nextId && (e.deliveredAt.Some? || e.failedAt.Some?)
    requires e in box.rows || !Known(box.rows, e.id)
    ensures var box' := Step(box, max, op);
            && box.nextId <= box'.nextId
            && (e in box'.rows <==> e in box.rows && !Removes(op, e))
            && (e in box'.rows || !Known(box'.rows, e.id))
  {
    match op
    case Post(org, name, text) => PostSettles(box, org, name, text);
    case RelayPass(batch, reply, now) => PassSettles(box, max, batch, reply, now, 0);
    case Purge(failed, cutoff) =>
      SurvivorsOf(box.rows, failed, cutoff);
      var kept := Survivors(box.rows, failed, cutoff);
      if e in box.rows && Removes(op, e) {
        OnlyRow(box, max, e, kept);
      }
      forall i | 0 <= i < |kept| ensures kept[i] in box.rows {
        assert kept[i] in kept;
      }
  }

  /** No two rows share an id. */
  lemma OnlyRow(box: Box, max: nat, e: Event, kept: seq<Event>)
    requires BoxOk(box, max) && e in box.rows && e !in kept && forall f :: f in kept ==> f in box.rows
    ensures !Known(kept, e.id)
  {
    var i :| 0 <= i < |box.rows| && box.rows[i] == e;
    forall k | 0 <= k < |kept| ensures kept[k].id != e.id {
      assert kept[k] in kept && kept[k] in box.rows;
      var m :| 0 <= m < |box.rows| && box.rows[m] == kept[k];
      assert i < m ==> box.rows[i].id < box.rows[m].id;
      assert m < i ==> box.rows[m].id < box.rows[i].id;
    }
  }

  /** The purges of a run with a later cutoff, of the kind that concerns delivered or failed rows. */
  ghost predicate PurgedPast(ops: seq<Op>, failed: bool, t: nat) {
    exists n :: 0 <= n < |ops| && PurgesPast(ops[n], failed, t)
  }

  predicate PurgesPast(op: Op, failed: bool, t: nat) {
    op.Purge? && op.failed == failed && t < op.cutoff
  }

  lemma PurgedPastLast(ops: seq<Op>, failed: bool, t: nat)
    requires ops != []
    ensures PurgedPast(ops, failed, t) <==> PurgedPast(ops[..|ops| - 1], failed, t) || PurgesPast(ops[|ops| - 1], failed, t)
  {
    var before := ops[..|ops| - 1];
    if PurgedPast(before, failed, t) {
      var n :| 0 <= n < |before| && PurgesPast(before[n], failed, t);
      assert PurgesPast(ops[n], failed, t);
    }
    if PurgedPast(ops, failed, t) {
      var n :| 0 <= n < |ops| && PurgesPast(ops[n], failed, t);
      assert n < |before| ==> PurgesPast(before[n], failed, t);
    }
  }

  /**
   * Over every run: a row that was delivered at `t` is kept, unchanged, until a purge of delivered rows
   * with a cutoff after `t`, and a row that failed at `t` until such a purge of failed rows; and then it
   * is gone for good.
   */
  lemma {:induction false} KeptUntilPurged(box: Box, max: nat, ops: seq<Op>, e: Event, failed: bool, t: nat)
    requires BoxOk(box, max) && e in box.rows && FinishedAt(e, failed, t)
    ensures var box' := Exec(box, max, ops);
            && (e in box'.rows <==> !PurgedPast(ops, failed, t))
            && (e in box'.rows || !Known(box'.rows, e.id))
            && e.id < box'.nextId
    decreases |ops|
  {
    hide Step, BoxOk;
    if ops == [] {
      RowIdKnown(box, max, e);
    } else {
      var before, op := ops[..|ops| - 1], ops[|ops| - 1];
      KeptUntilPurged(box, max, before, e, failed, t);
      RowsKeepInvariant(box, max, before);
      StepSpares(Exec(box, max, before), max, op, e);
      PurgedPastLast(ops, failed, t);
      assert Removes(op, e) <==> PurgesPast(op, failed, t);
    }
  }

  lemma RowIdKnown(box: Box, max: nat, e: Event)
    requires BoxOk(box, max) && e in box.rows
    ensures e.id < box.nextId
  {
    var i :| 0 <= i < |box.rows| && box.rows[i] == e;
    assert EventOk(box, max, box.rows[i]);
  }

  /** After both purges at one cutoff no row that was finished before it is left, and every other row is. */
  lemma BothPurges(box: Box, max: nat, cutoff: nat)
    ensures var rows' := Exec(box, max, [Purge(true, cutoff), Purge(false, cutoff)]).rows;
            forall e :: e in rows' <==>
              && e in box.rows
              && (e.deliveredAt == None || cutoff <= e.deliveredAt.value) && (e.failedAt == None || cutoff <= e.failedAt.value)
  {
    var ops := [Purge(true, cutoff), Purge(false, cutoff)];
    assert ops[..1] == [Purge(true, cutoff)] && ops[..1][..0] == [];
    var first := Survivors(box.rows, true, cutoff);
    assert Exec(box, max, ops[..1]) == box.(rows := first);
    SurvivorsOf(box.rows, true, cutoff);
    SurvivorsOf(first, false, cutoff);
  }

  /** `get_or_create`: the row that holds the key is returned if it is of the same organization and kind. */
  lemma EnqueueDecides(box: Box, org: nat, kind: Kind, key: Key)
    ensures var (box', inserted) := Enqueue(box, org, kind, key);
            && (inserted == Fresh(box.nextId) <==> forall i :: 0 <= i < |box.rows| ==> box.rows[i].key != key)
            && (inserted.Fresh? ==> box'.rows == box.rows + [Event(box.nextId, org, kind, key, 0, None, None)])
            && (!inserted.Fresh? ==> box' == box)
            && (inserted.Existing? ==>
                  exists i :: 0 <= i < |box.rows| && box.rows[i].key == key && box.rows[i].org == org
                              && box.rows[i].kind == kind && box.rows[i].id == inserted.id)
            && (inserted.KeyTaken? ==>
                  exists i :: 0 <= i < |box.rows| && box.rows[i].key == key && (box.rows[i].org != org || box.rows[i].kind != kind))
  {
  }
}
