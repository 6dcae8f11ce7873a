/** The invariant holds after every run, whatever the interleaving. */
module Runs {
  import opened Common
  import opened Jobs
  import opened Database
  import opened DatabaseInvariant
  import opened Protocol
  import opened ProtocolInvariant
  import opened WorkerSafety
  import opened SystemSafety
  import opened SubmitSafety

  lemma SnapshotActionKeeps(cfg: Config, s: State, a: Action)
    requires Inv(cfg, s)
    requires a.AReapSnapshot? || a.AExpirySnapshot? || a.APurgeSnapshot? || a.AGcSnapshot?
    ensures Inv(cfg, Apply(cfg, s, a))
  {
    hide Inv;
    match a {
      case AReapSnapshot(j) => ReapSnapshotKeeps(cfg, s, j);
      case AExpirySnapshot(j) => ExpirySnapshotKeeps(cfg, s, j);
      case APurgeSnapshot(j) => PurgeSnapshotKeeps(cfg, s, j);
      case AGcSnapshot(b) => GcSnapshotKeeps(cfg, s, b);
    }
  }

  lemma SweepActionKeeps(cfg: Config, s: State, a: Action)
    requires Inv(cfg, s)
    requires a.AReapAct? || a.AExpiryAct? || a.APurgeAct? || a.AGcAct?
    ensures Inv(cfg, Apply(cfg, s, a))
  {
    hide Inv;
    match a {
      case AReapAct(i) => ReapActKeeps(cfg, s, i);
      case AExpiryAct(i) => ExpiryActKeeps(cfg, s, i);
      case APurgeAct(i) => PurgeActKeeps(cfg, s, i);
      case AGcAct(i) => GcActKeeps(cfg, s, i);
    }
  }

  lemma RequestActionKeeps(cfg: Config, s: State, a: Action)
    requires Inv(cfg, s)
    requires a.ACancelRead? || a.ACancelAct? || a.APay? || a.ADefault? || a.APurgeNote?
    ensures Inv(cfg, Apply(cfg, s, a))
  {
    hide Inv;
    match a {
      case ACancelRead(j) => CancelReadKeeps(cfg, s, j);
      case ACancelAct(c) => CancelActKeeps(cfg, s, c);
      case APay(i) => PayKeeps(cfg, s, i);
      case ADefault(i) => DefaultKeeps(cfg, s, i);
      case APurgeNote(note) => PurgeNoteKeeps(cfg, s, note);
    }
  }

  lemma WorkerActionKeeps(cfg: Config, s: State, a: Action)
    requires Inv(cfg, s)
    requires a.AWorker? || a.ARaise? || a.ACrash?
    ensures Inv(cfg, Apply(cfg, s, a))
  {
    hide Inv, WorkerStep, WorkerRaise;
    match a {
      case AWorker(w, o) => if w < |s.workers| { WorkerStepKeeps(cfg, s, w, o); }
      case ARaise(w, kind) => if w < |s.workers| { WorkerRaiseKeeps(cfg, s, w, kind); }
      case ACrash(w) => if w < |s.workers| { LeaveKeeps(cfg, s, Goto(s, w, Gone), w); }
    }
  }

  lemma SubmitActionKeeps(cfg: Config, s: State, a: Action)
    requires Inv(cfg, s)
    requires a.ASubmit? || a.ASubmitStep? || a.ASubmitFault? || a.ASubmitCrash?
    ensures Inv(cfg, Apply(cfg, s, a))
  {
    hide Inv, SubmitStep, SubmitFault;
    match a {
      case ASubmit(r) => SubmitBeginKeeps(cfg, s, r);
      case ASubmitStep(i, reuse, ttl, limited) => if i < |s.submits| { SubmitStepKeeps(cfg, s, i, reuse, ttl, limited); }
      case ASubmitFault(i) => if i < |s.submits| { SubmitAbortKeeps(cfg, s, i); }
      case ASubmitCrash(i) => if i < |s.submits| { SubmitCrashKeeps(cfg, s, i); }
    }
  }

  lemma MessageActionKeeps(cfg: Config, s: State, a: Action)
    requires Inv(cfg, s)
    requires a.ADispatch? || a.ALoseDispatch? || a.ARevoke? || a.ADeliver?
    ensures Inv(cfg, Apply(cfg, s, a))
  {
    hide Inv;
    match a {
      case ADispatch(m) => MessageKeeps(cfg, s, MoveMessage(s, m, Owed, Queued).messages);
      case ALoseDispatch(m) => MessageKeeps(cfg, s, MoveMessage(s, m, Owed, Lost).messages);
      case ARevoke(m) => MessageKeeps(cfg, s, Revoke(s, m).messages);
      case ADeliver(m) => DeliverKeeps(cfg, s, m);
    }
  }

  lemma ApplyKeeps(cfg: Config, s: State, a: Action)
    requires Inv(cfg, s)
    ensures Inv(cfg, Apply(cfg, s, a))
  {
    hide Inv;
    if a.ATick? {
      TickKeeps(cfg, s, a.seconds);
    } else if a.AWorker? || a.ARaise? || a.ACrash? {
      WorkerActionKeeps(cfg, s, a);
    } else if a.ASubmit? || a.ASubmitStep? || a.ASubmitFault? || a.ASubmitCrash? {
      SubmitActionKeeps(cfg, s, a);
    } else if a.ADispatch? || a.ALoseDispatch? || a.ARevoke? || a.ADeliver? {
      MessageActionKeeps(cfg, s, a);
    } else if a.AReapSnapshot? || a.AExpirySnapshot? || a.APurgeSnapshot? || a.AGcSnapshot? {
      SnapshotActionKeeps(cfg, s, a);
    } else if a.AReapAct? || a.AExpiryAct? || a.APurgeAct? || a.AGcAct? {
      SweepActionKeeps(cfg, s, a);
    } else {
      RequestActionKeeps(cfg, s, a);
    }
  }

  lemma StartOk(cfg: Config)
    ensures Inv(cfg, START)
  {
  }

  lemma {:induction false} RunKeeps(cfg: Config, s: State, run: seq<Action>)
    requires Inv(cfg, s)
    ensures Inv(cfg, Exec(cfg, s, run))
    decreases |run|
  {
    hide Apply, Inv;
    if run != [] {
      RunKeeps(cfg, s, run[..|run| - 1]);
      ApplyKeeps(cfg, Exec(cfg, s, run[..|run| - 1]), run[|run| - 1]);
    }
  }

  /** Every reachable state satisfies the invariant. */
  lemma Reachable(cfg: Config, run: seq<Action>)
    ensures Inv(cfg, Exec(cfg, START, run))
  {
    hide Apply;
    StartOk(cfg);
    RunKeeps(cfg, START, run);
  }
}
