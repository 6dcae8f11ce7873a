/**
 * The job system together with the relay that delivers its outbox: the rows that jobs announce are
 * the relay's rows, so the promises of both hold of one system.
 */
module JobOutbox {
  import opened Common
  import opened Jobs
  import opened Database
  import opened DatabaseInvariant
  import opened Protocol
  import opened ProtocolInvariant
  import opened Runs
  import opened Announcements
  import Relay = Outbox
  import RelayGuarantees = OutboxGuarantees
  import Slugs

  // ---- Keys ---------------------------------------------------------------------------------------------

  function KindText(kind: NoteKind): string {
    match kind
    case NoteDone => "done"
    case NoteFailed => "failed"
    case NoteCancelled => "cancelled"
    case NoteDeadLetter => "dead_letter"
  }

  /** The idempotency key. */
  function KeyText(n: Note): string {
    "job:" + Slugs.Decimal(n.job) + ":" + KindText(n.kind)
  }

  function KeyOf(n: Note): Relay.Key {
    Relay.Named(KeyText(n))
  }

  lemma SameParts(a: string, b: string, x: string, y: string)
    requires ':' !in a && ':' !in b && a + ":" + x == b + ":" + y
    ensures a == b && x == y
  {
    var s, t := a + ":" + x, b + ":" + y;
    assert s[|a|] == ':' && t[|b|] == ':';
    assert forall i :: 0 <= i < |a| ==> s[i] == a[i] && s[i] != ':';
    assert forall i :: 0 <= i < |b| ==> t[i] == b[i] && t[i] != ':';
    assert s[..|a|] == a && t[..|b|] == b && s[|a| + 1..] == x && t[|b| + 1..] == y;
  }

  /** The key determines job and kind. */
  lemma KeysDiffer(m: Note, n: Note)
    requires KeyText(m) == KeyText(n)
    ensures m == n
  {
    hide Slugs.Decimal, Slugs.Value, KindText;
    assert KeyText(m)[4..] == Slugs.Decimal(m.job) + ":" + KindText(m.kind);
    assert KeyText(n)[4..] == Slugs.Decimal(n.job) + ":" + KindText(n.kind);
    SameParts(Slugs.Decimal(m.job), Slugs.Decimal(n.job), KindText(m.kind), KindText(n.kind));
    Slugs.DecimalValue(m.job);
    Slugs.DecimalValue(n.job);
    KindsDiffer(m.kind, n.kind);
  }

  lemma KindsDiffer(a: NoteKind, b: NoteKind)
    requires KindText(a) == KindText(b)
    ensures a == b
  {
    assert KindText(a)[0] == KindText(b)[0];
  }

  // ---- The whole system -----------------------------------------------------------------------------------

  datatype Whole = Whole(s: State, box: Relay.Box)

  const BEGIN := Whole(START, Relay.NEW_BOX)

  /** `Act`: an action of the job system, for an organization, with the outbox rows it creates. */
  datatype Move =
    | Act(a: Action, org: nat)
    | RelayPass(batch: nat, reply: nat -> bool, now: nat)
    | Purge(failed: bool, cutoff: nat)

  function PostOf(n: Note, org: nat): Relay.Op {
    Relay.Post(org, "conversion.job." + KindText(n.kind), KeyText(n))
  }

  function Posts(notes: seq<Note>, org: nat): seq<Relay.Op> {
    if notes == [] then [] else Posts(notes[..|notes| - 1], org) + [PostOf(notes[|notes| - 1], org)]
  }

  /** The relay's operations in a move. */
  function OpsOf(cfg: Config, s: State, m: Move): seq<Relay.Op> {
    match m
    case Act(a, org) => if a.APurgeNote? then [] else Posts(Extra(cfg, s, a), org)
    case RelayPass(batch, reply, now) => [Relay.RelayPass(batch, reply, now)]
    case Purge(failed, cutoff) => [Relay.Purge(failed, cutoff)]
  }

  predicate HasRow(rows: seq<Relay.Event>, key: Relay.Key) {
    exists i :: 0 <= i < |rows| && rows[i].key == key
  }

  /** Rows leave the outbox only by the relay's purges. */
  function Do(cfg: Config, max: nat, x: Whole, m: Move): Whole {
    var box := Relay.Exec(x.box, max, OpsOf(cfg, x.s, m));
    match m
    case Act(a, _) => Whole(if a.APurgeNote? then x.s else Apply(cfg, x.s, a), box)
    case RelayPass(_, _, _) => Whole(x.s, box)
    case Purge(_, _) => Whole(x.s.(db := x.s.db.(notes := set n | n in x.s.db.notes && HasRow(box.rows, KeyOf(n)))), box)
  }

  function After(cfg: Config, max: nat, moves: seq<Move>): Whole
    decreases |moves|
  {
    if moves == [] then BEGIN
    else Do(cfg, max, After(cfg, max, moves[..|moves| - 1]), moves[|moves| - 1])
  }

  // ---- Both systems run as before -------------------------------------------------------------------------

  lemma {:induction false} RelayExecSplit(box: Relay.Box, max: nat, a: seq<Relay.Op>, b: seq<Relay.Op>)
    ensures Relay.Exec(box, max, a + b) == Relay.Exec(Relay.Exec(box, max, a), max, b)
    decreases |b|
  {
    if b == [] {
      assert a + b == a;
    } else {
      assert (a + b)[..|a + b| - 1] == a + b[..|b| - 1];
      RelayExecSplit(box, max, a, b[..|b| - 1]);
    }
  }

  /** A purge of rows is a run of single purges. */
  lemma {:induction false} PurgeIsRun(cfg: Config, s: State, gone: set<Note>) returns (run: seq<Action>)
    ensures Exec(cfg, s, run) == s.(db := s.db.(notes := s.db.notes - gone))
    decreases |gone|
  {
    if gone == {} {
      run := [];
      assert s.db.notes - gone == s.db.notes;
    } else {
      var n :| n in gone;
      var before := PurgeIsRun(cfg, s, gone - {n});
      run := before + [APurgeNote(n)];
      assert run[..|before|] == before;
      assert s.db.notes - (gone - {n}) - {n} == s.db.notes - gone;
    }
  }

  /** Every run of the whole is a run of the job system and a run of the outbox. */
  lemma {:induction false} Projects(cfg: Config, max: nat, moves: seq<Move>) returns (run: seq<Action>, ops: seq<Relay.Op>)
    ensures After(cfg, max, moves).s == Exec(cfg, START, run)
    ensures After(cfg, max, moves).box == Relay.Exec(Relay.NEW_BOX, max, ops)
    decreases |moves|
  {
    hide Apply, Relay.Step;
    if moves == [] {
      run, ops := [], [];
    } else {
      var x, m := After(cfg, max, moves[..|moves| - 1]), moves[|moves| - 1];
      run, ops := Projects(cfg, max, moves[..|moves| - 1]);
      RelayExecSplit(Relay.NEW_BOX, max, ops, OpsOf(cfg, x.s, m));
      ops := ops + OpsOf(cfg, x.s, m);
      if m.Act? && !m.a.APurgeNote? {
        assert (run + [m.a])[..|run|] == run;
        run := run + [m.a];
      } else if m.Purge? {
        var kept := Do(cfg, max, x, m).s.db.notes;
        var more := PurgeIsRun(cfg, x.s, x.s.db.notes - kept);
        assert x.s.db.notes - (x.s.db.notes - kept) == kept;
        ExecSplit(cfg, START, run, more);
        run := run + more;
      }
    }
  }

  // ---- The link -------------------------------------------------------------------------------------------

  /** How often a row with this key was inserted. */
  function TimesCreated(box: Relay.Box, key: Relay.Key): nat {
    multiset(box.created)[key]
  }

  /** The announced rows are the relay's rows, present and past. */
  predicate LinkedNote(db: Db, box: Relay.Box, n: Note) {
    && (n in db.notes <==> HasRow(box.rows, KeyOf(n)))
    && TimesCreated(box, KeyOf(n)) == Times(db.announced, n.job, n.kind)
  }

  ghost predicate Linked(x: Whole) {
    && (forall n: Note :: LinkedNote(x.s.db, x.box, n))
    && RelayGuarantees.Born(x.box.created) == |x.s.db.announced|
  }

  /** A post of a key that is not there appends one row. */
  lemma PostAppends(box: Relay.Box, max: nat, n: Note, org: nat, m: Note)
    requires !HasRow(box.rows, KeyOf(n))
    ensures var box' := Relay.Step(box, max, PostOf(n, org));
            && (HasRow(box'.rows, KeyOf(m)) <==> HasRow(box.rows, KeyOf(m)) || m == n)
            && TimesCreated(box', KeyOf(m)) == TimesCreated(box, KeyOf(m)) + (if m == n then 1 else 0)
            && RelayGuarantees.Born(box'.created) == RelayGuarantees.Born(box.created) + 1
  {
    var box' := Relay.Step(box, max, PostOf(n, org));
    if KeyText(m) == KeyText(n) {
      KeysDiffer(m, n);
    }
    assert Relay.Find(box.rows, KeyOf(n)).None?;
    assert box'.created[..|box.created|] == box.created;
    assert box'.rows[..|box.rows|] == box.rows && box'.rows[|box.rows|].key == KeyOf(n);
    if HasRow(box.rows, KeyOf(m)) {
      var i :| 0 <= i < |box.rows| && box.rows[i].key == KeyOf(m);
      assert box'.rows[i].key == KeyOf(m);
    }
  }

  lemma {:induction false} PostsAppend(box: Relay.Box, max: nat, notes: seq<Note>, org: nat, m: Note)
    requires forall n :: n in notes ==> !HasRow(box.rows, KeyOf(n))
    requires forall i, k :: 0 <= i < k < |notes| ==> notes[i] != notes[k]
    ensures var box' := Relay.Exec(box, max, Posts(notes, org));
            && (HasRow(box'.rows, KeyOf(m)) <==> HasRow(box.rows, KeyOf(m)) || m in notes)
            && TimesCreated(box', KeyOf(m)) == TimesCreated(box, KeyOf(m)) + multiset(notes)[m]
            && RelayGuarantees.Born(box'.created) == RelayGuarantees.Born(box.created) + |notes|
  {
    hide Relay.Step, KeyOf, HasRow;
    if notes != [] {
      var before, n := notes[..|notes| - 1], notes[|notes| - 1];
      assert notes == before + [n];
      PostsAppend(box, max, before, org, m);
      PostsAppend(box, max, before, org, n);
      assert Posts(notes, org)[..|Posts(notes, org)| - 1] == Posts(before, org);
      PostAppends(Relay.Exec(box, max, Posts(before, org)), max, n, org, m);
    }
  }

  lemma ActLinks(cfg: Config, max: nat, x: Whole, a: Action, org: nat)
    requires Inv(cfg, x.s) && Linked(x) && !a.APurgeNote?
    ensures Linked(Do(cfg, max, x, Act(a, org)))
  {
    hide Apply, Extra, Inv, HasRow, KeyOf, Relay.Exec;
    Announces(cfg, x.s, a);
    var extra, x' := Extra(cfg, x.s, a), Do(cfg, max, x, Act(a, org));
    forall n | n in extra ensures !HasRow(x.box.rows, KeyOf(n)) {
      assert LinkedNote(x.s.db, x.box, n);
    }
    forall n: Note ensures LinkedNote(x'.s.db, x'.box, n) {
      assert LinkedNote(x.s.db, x.box, n);
      PostsAppend(x.box, max, extra, org, n);
    }
    PostsAppend(x.box, max, extra, org, Note(0, NoteDone));
  }

  /** The relay keeps job rows, and adds only dead letters of its own. */
  lemma AttemptKeepsRows(box: Relay.Box, max: nat, i: nat, now: nat, ok: bool, n: Note)
    requires i < |box.rows|
    ensures var box' := Relay.Attempt(box, max, i, now, ok);
            && (HasRow(box'.rows, KeyOf(n)) <==> HasRow(box.rows, KeyOf(n)))
            && TimesCreated(box', KeyOf(n)) == TimesCreated(box, KeyOf(n))
            && RelayGuarantees.Born(box'.created) == RelayGuarantees.Born(box.created)
  {
    var box' := Relay.Attempt(box, max, i, now, ok);
    assert forall k :: 0 <= k < |box.rows| ==> box'.rows[k].key == box.rows[k].key;
    assert forall k :: |box.rows| <= k < |box'.rows| ==> box'.rows[k].key.DeadLetterOf?;
    assert box'.created[..|box.created|] == box.created;
    if HasRow(box.rows, KeyOf(n)) {
      var k :| 0 <= k < |box.rows| && box.rows[k].key == KeyOf(n);
      assert box'.rows[k].key == KeyOf(n);
    }
  }

  lemma {:induction false} PassKeepsRows(box: Relay.Box, max: nat, batch: nat, reply: nat -> bool, now: nat, done: nat, n: Note)
    ensures var box' := Relay.Pass(box, max, batch, reply, now, done).0;
            && (HasRow(box'.rows, KeyOf(n)) <==> HasRow(box.rows, KeyOf(n)))
            && TimesCreated(box', KeyOf(n)) == TimesCreated(box, KeyOf(n))
            && RelayGuarantees.Born(box'.created) == RelayGuarantees.Born(box.created)
    decreases batch - done
  {
    hide HasRow, KeyOf, Relay.Attempt;
    if done < batch && Relay.Next(box.rows, max).Some? {
      var i := Relay.Next(box.rows, max).value;
      AttemptKeepsRows(box, max, i, now, reply(done), n);
      if reply(done) {
        PassKeepsRows(Relay.Attempt(box, max, i, now, true), max, batch, reply, now, done + 1, n);
      }
    }
  }

  lemma {:induction false} SurvivorsAreRows(rows: seq<Relay.Event>, failed: bool, cutoff: nat, key: Relay.Key)
    requires HasRow(Relay.Survivors(rows, failed, cutoff), key)
    ensures HasRow(rows, key)
  {
    var i :| 0 <= i < |Relay.Survivors(rows, failed, cutoff)| && Relay.Survivors(rows, failed, cutoff)[i].key == key;
    var n := |rows| - 1;
    if i < |Relay.Survivors(rows[..n], failed, cutoff)| {
      SurvivorsAreRows(rows[..n], failed, cutoff, key);
      var k :| 0 <= k < n && rows[..n][k].key == key;
      assert rows[k].key == key;
    } else {
      assert rows[n].key == key;
    }
  }

  lemma OneOp(box: Relay.Box, max: nat, op: Relay.Op)
    ensures Relay.Exec(box, max, [op]) == Relay.Step(box, max, op)
  {
    assert [op][..0] == [];
  }

  lemma RelayLinks(cfg: Config, max: nat, x: Whole, m: Move)
    requires Linked(x) && !m.Act?
    ensures Linked(Do(cfg, max, x, m))
  {
    hide HasRow, KeyOf, Relay.Pass, Relay.Survivors, Relay.Exec;
    var x', op := Do(cfg, max, x, m), OpsOf(cfg, x.s, m)[0];
    OneOp(x.box, max, op);
    forall n: Note ensures LinkedNote(x'.s.db, x'.box, n) {
      assert LinkedNote(x.s.db, x.box, n);
      if m.RelayPass? {
        PassKeepsRows(x.box, max, m.batch, m.reply, m.now, 0, n);
      } else if HasRow(x'.box.rows, KeyOf(n)) {
        SurvivorsAreRows(x.box.rows, m.failed, m.cutoff, KeyOf(n));
      }
    }
    if m.RelayPass? {
      PassKeepsRows(x.box, max, m.batch, m.reply, m.now, 0, Note(0, NoteDone));
    }
  }

  lemma {:induction false} AlwaysLinked(cfg: Config, max: nat, moves: seq<Move>)
    ensures Linked(After(cfg, max, moves))
    decreases |moves|
  {
    hide Do, Linked;
    if moves == [] {
      BeginLinked();
    } else {
      var before, m := moves[..|moves| - 1], moves[|moves| - 1];
      var x := After(cfg, max, before);
      AlwaysLinked(cfg, max, before);
      if m.Act? && !m.a.APurgeNote? {
        var run, _ := Projects(cfg, max, before);
        Reachable(cfg, run);
        ActLinks(cfg, max, x, m.a, m.org);
      } else if m.Act? {
        NothingDone(cfg, max, x, m);
      } else {
        RelayLinks(cfg, max, x, m);
      }
    }
  }

  lemma BeginLinked()
    ensures Linked(BEGIN)
  {
  }

  lemma NothingDone(cfg: Config, max: nat, x: Whole, m: Move)
    requires m.Act? && m.a.APurgeNote?
    ensures Do(cfg, max, x, m) == x
  {
  }

  /**
   * For every run of jobs, relay and purges together: a job's key of each kind is inserted at most
   * once, done and failed exactly if the job ended so, and the webhook calls of all time are at
   * most twice the relay's attempt limit for each row ever announced.
   */
  lemma OutboxOfJobs(cfg: Config, max: nat, moves: seq<Move>, j: nat)
    requires j < |After(cfg, max, moves).s.db.jobs|
    ensures var x := After(cfg, max, moves); var status := x.s.db.jobs[j].status;
            && TimesCreated(x.box, KeyOf(Note(j, NoteDone))) == (if status.Billed() then 1 else 0)
            && TimesCreated(x.box, KeyOf(Note(j, NoteFailed))) == (if status.Failed? then 1 else 0)
            && TimesCreated(x.box, KeyOf(Note(j, NoteCancelled))) <= (if status.Cancelled? then 1 else 0)
            && TimesCreated(x.box, KeyOf(Note(j, NoteDeadLetter))) <= (if status.Failed? then 1 else 0)
            && |x.box.calls| <= 2 * max * |x.s.db.announced|
  {
    hide After, Exec, Apply, TimesCreated, KeyOf, Reaped, KeyOwed;
    var x := After(cfg, max, moves);
    var run, ops := Projects(cfg, max, moves);
    OneAnnouncement(cfg, run, j);
    AlwaysLinked(cfg, max, moves);
    RelayGuarantees.DeliveryTerminates(max, ops);
    forall kind: NoteKind ensures TimesCreated(x.box, KeyOf(Note(j, kind))) == Times(x.s.db.announced, j, kind) {
      assert LinkedNote(x.s.db, x.box, Note(j, kind));
    }
  }
}
