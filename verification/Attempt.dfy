/**
 * `run_conversion` as a program over the mutable tables, and the proof that its control flow is
 * the one of the worker in `Protocol`: every way through it, with any exception at any point, is
 * a run of worker actions with the same effect on the tables and the progress cache.
 */
module Attempt {
  import opened Common
  import opened Jobs
  import opened Database
  import opened DatabaseInvariant
  import opened Protocol
  import opened WorkerSafety
  import opened Store
  import opened Progress

  /** The converter, the file system and the clock: what they return or raise. */
  datatype Script = Script(setup: Option<ErrorKind>, probe: Option<ErrorKind>, reports: seq<int>,
                           convert: Option<ErrorKind>, check: Option<ErrorKind>, create: Option<ErrorKind>,
                           promote: Option<ErrorKind>, finish: Option<ErrorKind>, clock: nat -> real, ttl: nat)

  datatype Raised = Nothing | Raise(cause: Cause)

  /** The handler of `run_conversion` that an outcome of its `try` body leads to. */
  function Destination(raised: Raised, otherwise: Pc): Pc {
    match raised
    case Nothing => otherwise
    case Raise(cause) => Handler(cause)
  }

  /** The kinds of exception that the script raises. */
  function Kinds(script: Script): set<ErrorKind> {
    Kind(script.setup) + Kind(script.probe) + Kind(script.convert) + Kind(script.check)
    + Kind(script.create) + Kind(script.promote) + Kind(script.finish)
  }

  function Kind(raised: Option<ErrorKind>): set<ErrorKind> {
    if raised.Some? then {raised.value} else {}
  }

  /** The exception that ends the `try` body if nobody interferes. */
  function FirstRaise(script: Script): Option<ErrorKind> {
    if script.setup.Some? then script.setup
    else if script.probe.Some? then script.probe
    else if script.convert.Some? then script.convert
    else if script.check.Some? then script.check
    else if script.create.Some? then script.create
    else if script.promote.Some? then script.promote
    else script.finish
  }

  /** Actions of worker `w` alone, with exceptions of these kinds only; its own debts are those from `first` on. */
  predicate ByWorker(run: seq<Action>, w: nat, kinds: set<ErrorKind>, first: nat) {
    forall i :: 0 <= i < |run| ==>
      || ((run[i].AWorker? || (run[i].ARaise? && run[i].kind in kinds)) && run[i].w == w)
      || (run[i].APay? && run[i].i >= first)
  }

  /** Worker `w` of `s` stands at `pc` with claim `c`, over these tables. */
  ghost predicate Stands(s: State, tables: Tables, w: nat, j: nat, c: Database.Claim, pc: Pc)
    reads tables
  {
    && s.db == tables.Contents() && s.cache == tables.progress
    && w < |s.workers| && j < |s.db.jobs|
    && c.Granted? && s.workers[w].job == j && s.workers[w].generation == c.generation
    && s.workers[w].attempts == c.attempts && s.workers[w].flagged == c.flagged && s.workers[w].pc == pc
  }

  /** `s'` is reached from `s` by the actions `run` of worker `w`, with exceptions of these kinds. */
  ghost predicate Reaches(cfg: Config, s: State, run: seq<Action>, w: nat, kinds: set<ErrorKind>, s': State) {
    Exec(cfg, s, run) == s' && |s.debts| <= |s'.debts| && ByWorker(run, w, kinds, |s.debts|)
  }

  lemma Join(cfg: Config, s: State, a: seq<Action>, w: nat, kinds: set<ErrorKind>, mid: State, b: seq<Action>, last: State)
    requires Reaches(cfg, s, a, w, kinds, mid) && Reaches(cfg, mid, b, w, kinds, last)
    ensures Reaches(cfg, s, a + b, w, kinds, last)
  {
    ExecSplit(cfg, s, a, b);
  }

  /** The worker writes the event it owes, and its message can go. */
  lemma JoinPay(cfg: Config, s: State, a: seq<Action>, w: nat, kinds: set<ErrorKind>, mid: State, i: nat)
    requires Reaches(cfg, s, a, w, kinds, mid) && |s.debts| <= i < |mid.debts|
    ensures Reaches(cfg, s, a + [APay(i)], w, kinds, Pay(mid, i))
  {
    ExecSplit(cfg, s, a, [APay(i)]);
    assert [APay(i)][..0] == [];
  }

  // ---- What the phases leave behind -------------------------------------------------------------------

  /** The claim is current, and nobody asked to cancel. */
  predicate Held(db: Db, j: nat, c: Database.Claim) {
    c.Granted? && Fence(db, j, c.generation) && !db.jobs[j].cancelRequested
  }

  /** What `raise_if_cancelled` raises. */
  function Checked(db: Db, j: nat, c: Database.Claim): Raised
    requires j < |db.jobs| && c.Granted?
  {
    if db.jobs[j].generation != c.generation then Raise(Superseded)
    else if db.jobs[j].cancelRequested then Raise(CancelSeen)
    else Nothing
  }

  lemma BeatsChain(a: Db, b: Db, c: Db, j: nat)
    requires OnlyBeats(a, b, j) && OnlyBeats(b, c, j)
    ensures OnlyBeats(a, c, j)
  {
  }

  lemma BeatsSelf(db: Db, j: nat)
    ensures OnlyBeats(db, db, j)
  {
  }

  lemma NoBeats(cfg: Config, s: State, w: nat, j: nat)
    ensures OnlyBeats(s.db, s.db, j) && Reaches(cfg, s, [], w, {}, s)
  {
  }

  /** Why a promotion was refused. */
  function Refusal(db: Db, j: nat, c: Database.Claim): Cause
    requires j < |db.jobs| && c.Granted?
  {
    if db.jobs[j].generation == c.generation && db.jobs[j].cancelRequested then CancelSeen else Superseded
  }

  function Or(kind: Option<ErrorKind>, otherwise: Raised): Raised {
    if kind.Some? then Raise(Error(kind.value)) else otherwise
  }

  /** `_handle_conversion_exception` as a function of the tables. */
  function HandledException(cfg: Config, db: Db, j: nat, c: Database.Claim, transient: bool): Db
    requires c.Granted?
  {
    var (retried, scheduled) :=
      if transient && c.attempts < cfg.maxAttempts then RetryLogged(db, j, c.generation, c.flagged, c.attempts)
      else (db, false);
    if scheduled then retried
    else
      var (failed, committed) := TerminalTransition(retried, j, c.generation, Failed, None, 0);
      if committed && transient then EmitDeadLetter(failed, j) else failed
  }

  /** The `except` clauses. */
  function Handled(cfg: Config, db: Db, j: nat, c: Database.Claim, cause: Cause): Db
    requires c.Granted?
  {
    match cause
    case Superseded => db
    case CancelSeen => TerminalTransition(db, j, c.generation, Cancelled, Some(0), 0).0
    case Error(Unsupported) => TerminalTransition(db, j, c.generation, Failed, None, 0).0
    case Error(kind) => HandledException(cfg, db, j, c, kind.Transient?)
  }

  /** The attempt failed, but the claim is still held and nothing has been announced, logged or billed. */
  predicate StillHeld(db: Db, db': Db, j: nat, c: Database.Claim) {
    && Held(db', j, c) && db'.ledger == db.ledger && db'.notes == db.notes && db'.announced == db.announced
    && db'.events == db.events && j < |db.jobs| && db'.jobs[j].request == db.jobs[j].request && db'.now == db.now
  }

  // ---- What row and cache show ------------------------------------------------------------------------

  /** The reporter's calls up to the `n`th report of the converter. */
  function Calls(script: Script, n: nat): seq<Call>
    requires n <= |script.reports|
  {
    [Call(script.clock(0), 5)] + seq(n, i requires 0 <= i < n => Call(script.clock(i + 1), script.reports[i]))
  }

  /** The first `n` reports of the converter all repeat the 5 of the first call, within a second of it. */
  predicate Repeats(script: Script, n: nat)
    requires n <= |script.reports|
  {
    forall i :: 0 <= i < n ==> RepeatsFirst(script, i)
  }

  predicate RepeatsFirst(script: Script, i: nat)
    requires i < |script.reports|
  {
    Clamped(script.reports[i]) == 5 && script.clock(i + 1) - script.clock(0) < 1.0
  }

  /** The percentage of the latest call after `n` reports of the converter. */
  function Latest(script: Script, n: nat): nat
    requires n <= |script.reports|
  {
    if n == 0 then 5 else Clamped(script.reports[n - 1])
  }

  /** The row's percentage after the conversion. */
  function Converted(script: Script): nat {
    if Repeats(script, |script.reports|) then 10 else Latest(script, |script.reports|)
  }

  /** The row's percentage when the `try` body ends; `before` is that of the claimed row. */
  function RowShown(script: Script, before: nat): nat {
    if script.setup.Some? then before
    else if script.probe.Some? then 5
    else if script.convert.Some? || script.check.Some? then Converted(script)
    else if script.create.Some? || script.promote.Some? then 96
    else if script.finish.Some? then 98
    else 100
  }

  /** The cached percentage when the `try` body ends. */
  function CacheShown(script: Script): nat {
    if script.probe.Some? then 5
    else if script.convert.Some? || script.check.Some? then Latest(script, |script.reports|)
    else 96
  }

  predicate Shows(script: Script, j: nat, before: nat, after: nat, cache: map<nat, nat>, cache': map<nat, nat>) {
    && after == RowShown(script, before)
    && cache' == if script.setup.Some? then cache else cache[j := CacheShown(script)]
  }

  /** The attempt delivered the blob it stored, or, without retention, retired it at once. */
  predicate DeliversOwn(db: Db, db': Db, j: nat, ttl: nat) {
    && j < |db.jobs| && j < |db'.jobs|
    && (if ttl > 0
        then db'.jobs[j].status.Done? && db'.jobs[j].output == Some(|db.made|) && |db.made| in db'.bytes
        else db'.jobs[j].status.Expired? && db'.jobs[j].output.None?)
    && db'.ledger == db.ledger + [Charge(j, db.jobs[j].request.size)]
    && db'.announced == Enqueue(db, Note(j, NoteDone)).announced
    && db'.now == db.now && db'.jobs[j].heartbeat == Some(db.now)
  }

  /** What the `try` body comes to if the claim is held when it starts. */
  predicate BodyEnds(db: Db, db': Db, j: nat, c: Database.Claim, script: Script, raised: Raised,
                     cache: map<nat, nat>, cache': map<nat, nat>) {
    && raised == Or(FirstRaise(script), Nothing)
    && j < |db.jobs| && j < |db'.jobs|
    && Shows(script, j, db.jobs[j].percent, db'.jobs[j].percent, cache, cache')
    && (if raised.Nothing? then DeliversOwn(db, db', j, script.ttl) else StillHeld(db, db', j, c))
  }

  /** What a whole attempt comes to, from the tables before its claim. */
  predicate AttemptEnds(cfg: Config, db: Db, db': Db, j: nat, attempts: nat, script: Script,
                        cache: map<nat, nat>, cache': map<nat, nat>) {
    && j < |db.jobs| && j < |db'.jobs|
    && Shows(script, j, if db.jobs[j].percent == 0 then 1 else db.jobs[j].percent, db'.jobs[j].percent, cache, cache')
    && db'.now == db.now && db'.jobs[j].heartbeat == Some(db.now)
    && match FirstRaise(script)
       case None =>
         && (if script.ttl > 0
             then db'.jobs[j].status.Done? && db'.jobs[j].output == Some(|db.made|) && |db.made| in db'.bytes
             else db'.jobs[j].status.Expired? && db'.jobs[j].output.None?)
         && db'.ledger == db.ledger + [Charge(j, db.jobs[j].request.size)]
         && db'.announced == db.announced + [Note(j, NoteDone)]
       case Some(kind) =>
         && db'.ledger == db.ledger
         && (if kind.Transient? && attempts < cfg.maxAttempts
             then db'.jobs[j].status.Retrying? && db'.announced == db.announced
             else db'.jobs[j].status.Failed?
                  && db'.announced == db.announced + [Note(j, NoteFailed)] + (if kind.Transient? then [Note(j, NoteDeadLetter)] else []))
  }

  ghost predicate ReportsFor(reporter: ProgressReporter, tables: Tables, j: nat, g: nat) {
    && reporter.tables == tables && reporter.publicId == j
    && reporter.job == Some(j) && reporter.generation == Some(g)
    && reporter.minInterval == 1.0 && reporter.minDelta == 1
  }

  lemma RaiseDebts(s: State, w: nat, kind: ErrorKind)
    requires w < |s.workers|
    ensures WorkerRaise(s, w, kind).debts == s.debts
  {
  }

  lemma Single(cfg: Config, s: State, w: nat, a: Action)
    requires (a.AWorker? || a.ARaise?) && a.w == w
    ensures Reaches(cfg, s, [a], w, if a.ARaise? then {a.kind} else {}, Apply(cfg, s, a))
  {
    hide WorkerStep, WorkerRaise;
    assert [a][..0] == [];
    assert Exec(cfg, s, [a]) == Apply(cfg, s, a);
    if a.AWorker? && w < |s.workers| {
      StepFrame(cfg, s, w, a.oracle);
    } else if w < |s.workers| {
      RaiseDebts(s, w, a.kind);
    }
    assert |s.debts| <= |Apply(cfg, s, a).debts|;
  }

  /** Where `try` bodies may raise without further ado. */
  predicate Plain(pc: Pc) {
    pc.AtScan? || pc.AtValidated? || pc.AtConvert? || pc.AtReportPromote? || pc.AtCreate? || pc.AtDone?
  }

  lemma Throws(cfg: Config, s: State, tables: Tables, w: nat, j: nat, c: Database.Claim, pc: Pc, kind: ErrorKind)
    requires Stands(s, tables, w, j, c, pc) && Plain(pc)
    ensures var s' := Apply(cfg, s, ARaise(w, kind));
            Reaches(cfg, s, [ARaise(w, kind)], w, {kind}, s') && Stands(s', tables, w, j, c, Handler(Error(kind)))
  {
    Single(cfg, s, w, ARaise(w, kind));
  }

  // ---- One worker action per shared access ------------------------------------------------------------

  method CheckCancelled(cfg: Config, tables: Tables, w: nat, j: nat, c: Database.Claim, next: Pc, ghost s: State)
    returns (raised: Raised, ghost run: seq<Action>, ghost s': State)
    requires w < |s.workers| && Stands(s, tables, w, j, c, s.workers[w].pc)
    requires || (s.workers[w].pc.AtCheckScan? && next == AtValidated)
             || (s.workers[w].pc.AtCheckConvert? && next == AtConvert)
             || (s.workers[w].pc.AtCheckPromote? && next == AtReportPromote)
    ensures Reaches(cfg, s, run, w, {}, s') && Stands(s', tables, w, j, c, Destination(raised, next))
    ensures raised == Checked(tables.Contents(), j, c)
  {
    var signal := tables.RaiseIfCancelled(j, c.generation);
    run := [AWorker(w, Oracle(None, 0))];
    s' := Apply(cfg, s, run[0]);
    Single(cfg, s, w, run[0]);
    assert s' == Check(s, w, next);
    raised := if signal.JobFenced? then Raise(Superseded) else if signal.JobCancelled? then Raise(CancelSeen) else Nothing;
  }

  method Beat(cfg: Config, tables: Tables, w: nat, j: nat, c: Database.Claim, next: Pc, ghost s: State)
    returns (ghost run: seq<Action>, ghost s': State)
    requires w < |s.workers| && Stands(s, tables, w, j, c, s.workers[w].pc)
    requires || (s.workers[w].pc.AtBeatScan? && next == AtCheckConvert)
             || (s.workers[w].pc.AtBeatConvert? && next == AtCheckPromote)
    modifies tables`jobs
    ensures Reaches(cfg, s, run, w, {}, s') && Stands(s', tables, w, j, c, next)
    ensures tables.Contents() == Database.Heartbeat(old(tables.Contents()), j, c.generation)
  {
    var _ := tables.Heartbeat(j, c.generation);
    run := [AWorker(w, Oracle(None, 0))];
    s' := Apply(cfg, s, run[0]);
    Single(cfg, s, w, run[0]);
    assert s' == Write(s, w, Database.Heartbeat(s.db, j, c.generation), next);
  }

  /** The first report is never throttled. */
  method FirstReport(cfg: Config, tables: Tables, reporter: ProgressReporter, w: nat, j: nat, c: Database.Claim, at: real, ghost s: State)
    returns (ghost run: seq<Action>, ghost s': State)
    requires Stands(s, tables, w, j, c, AtScan)
    requires ReportsFor(reporter, tables, j, c.generation) && reporter.Memory() == UNUSED
    modifies tables`jobs, tables`progress, reporter
    ensures Reaches(cfg, s, run, w, {}, s') && Stands(s', tables, w, j, c, AtCheckScan)
    ensures reporter.Memory() == Throttle(at, 5)
    ensures tables.Contents() == Database.Progress(old(tables.Contents()), j, c.generation, 5)
    ensures tables.progress == old(tables.progress)[j := 5]
  {
    var _ := reporter.Report(5, at);
    run := [AWorker(w, Oracle(None, 0))];
    s' := Apply(cfg, s, run[0]);
    Single(cfg, s, w, run[0]);
    assert s' == Protocol.Report(s, w, 5, AtCheckScan);
  }

  method InputValidated(cfg: Config, tables: Tables, w: nat, j: nat, c: Database.Claim, ghost s: State)
    returns (ghost run: seq<Action>, ghost s': State)
    requires Stands(s, tables, w, j, c, AtValidated)
    modifies tables`jobs
    ensures Reaches(cfg, s, run, w, {}, s') && Stands(s', tables, w, j, c, AtBeatScan)
    ensures tables.Contents() == Database.Progress(old(tables.Contents()), j, c.generation, 10)
  {
    tables.CoarseProgress(j, c.generation, 10);
    run := [AWorker(w, Oracle(None, 0))];
    s' := Apply(cfg, s, run[0]);
    Single(cfg, s, w, run[0]);
    assert s' == Write(s, w, Database.Progress(s.db, j, c.generation, 10), AtBeatScan);
  }

  lemma ReportApplies(cfg: Config, s: State, w: nat, percent: nat)
    requires w < |s.workers| && s.workers[w].pc.AtConvert?
    ensures Apply(cfg, s, AWorker(w, Oracle(Some(percent), 0))) == Protocol.Report(s, w, percent, AtConvert)
  {
    hide Protocol.Report, OutputStep, CheckStep, ClaimStep, VerdictStep;
  }

  /** One report out of the converter: a worker action unless the throttle drops it. */
  method ReportOnce(cfg: Config, tables: Tables, reporter: ProgressReporter, w: nat, j: nat, c: Database.Claim,
                    percent: int, at: real, ghost s: State)
    returns (wrote: bool, ghost run: seq<Action>, ghost s': State)
    requires Stands(s, tables, w, j, c, AtConvert) && ReportsFor(reporter, tables, j, c.generation)
    modifies tables`jobs, tables`progress, reporter
    ensures Reaches(cfg, s, run, w, {}, s') && Stands(s', tables, w, j, c, AtConvert)
    ensures reporter.Memory() == Progress.Next(old(reporter.Memory()), 1.0, 1, at, percent)
    ensures wrote == !Skips(old(reporter.Memory()), 1.0, 1, at, percent)
    ensures !wrote ==> tables.Contents() == old(tables.Contents()) && tables.progress == old(tables.progress)
    ensures wrote ==> tables.Contents() == Database.Progress(old(tables.Contents()), j, c.generation, Clamped(percent))
    ensures wrote ==> tables.progress == old(tables.progress)[j := Clamped(percent)]
  {
    hide Apply;
    run, s' := [], s;
    wrote := reporter.Report(percent, at);
    if wrote {
      run := [AWorker(w, Oracle(Some(Clamped(percent)), 0))];
      s' := Protocol.Report(s, w, Clamped(percent), AtConvert);
      ReportApplies(cfg, s, w, Clamped(percent));
      Single(cfg, s, w, run[0]);
    }
  }

  /** The converter returns. */
  lemma ConverterReturns(cfg: Config, s: State, tables: Tables, w: nat, j: nat, c: Database.Claim)
    requires Stands(s, tables, w, j, c, AtConvert)
    ensures var a := AWorker(w, Oracle(None, 0)); var s' := Apply(cfg, s, a);
            Reaches(cfg, s, [a], w, {}, s') && Stands(s', tables, w, j, c, AtBeatConvert)
  {
    Single(cfg, s, w, AWorker(w, Oracle(None, 0)));
  }

  lemma PromotingApplies(cfg: Config, s: State, w: nat, wrote: bool)
    requires w < |s.workers| && s.workers[w].pc.AtReportPromote?
    ensures Apply(cfg, s, AWorker(w, Oracle(if wrote then Some(96) else None, 0)))
            == if wrote then Protocol.Report(s, w, 96, AtCreate) else Goto(s, w, AtCreate)
  {
    hide Protocol.Report, OutputStep, CheckStep, ClaimStep, VerdictStep;
  }

  /** 96 is reported, unless the last report was 96 already and the throttle drops this one. */
  predicate Promoting(t: Throttle, db: Db, db': Db, cache: map<nat, nat>, cache': map<nat, nat>, j: nat, c: Database.Claim)
    requires c.Granted?
  {
    || (t.lastPercent == 96 && db' == db && cache' == cache)
    || (db' == Database.Progress(db, j, c.generation, 96) && cache' == cache[j := 96])
  }

  method ReportPromoting(cfg: Config, tables: Tables, reporter: ProgressReporter, w: nat, j: nat, c: Database.Claim, at: real, ghost s: State)
    returns (ghost run: seq<Action>, ghost s': State)
    requires Stands(s, tables, w, j, c, AtReportPromote) && ReportsFor(reporter, tables, j, c.generation)
    modifies tables`jobs, tables`progress, reporter
    ensures Reaches(cfg, s, run, w, {}, s') && Stands(s', tables, w, j, c, AtCreate)
    ensures Promoting(old(reporter.Memory()), old(tables.Contents()), tables.Contents(), old(tables.progress), tables.progress, j, c)
  {
    hide Apply;
    var wrote := reporter.Report(96, at);
    run := [AWorker(w, Oracle(if wrote then Some(96) else None, 0))];
    s' := if wrote then Protocol.Report(s, w, 96, AtCreate) else Goto(s, w, AtCreate);
    PromotingApplies(cfg, s, w, wrote);
    Single(cfg, s, w, run[0]);
  }

  method CreateOutput(cfg: Config, tables: Tables, w: nat, j: nat, c: Database.Claim, ghost s: State)
    returns (b: nat, ghost run: seq<Action>, ghost s': State)
    requires Stands(s, tables, w, j, c, AtCreate)
    modifies tables`made, tables`blobs, tables`bytes
    ensures Reaches(cfg, s, run, w, {}, s') && Stands(s', tables, w, j, c, AtPromote(b)) && b in s'.db.blobs
    ensures tables.Contents() == PersistBlob(old(tables.Contents()), Conversion(j, c.generation, w)) && b == |old(tables.made)|
  {
    b := tables.CreateBlob(Conversion(j, c.generation, w));
    run := [AWorker(w, Oracle(None, 0))];
    s' := Apply(cfg, s, run[0]);
    Single(cfg, s, w, run[0]);
    assert s' == Write(s, w, PersistBlob(s.db, Conversion(j, c.generation, w)), AtPromote(b));
  }

  lemma PromoteApplies(cfg: Config, s: State, w: nat, b: nat)
    requires w < |s.workers| && s.workers[w].pc == AtPromote(b)
    ensures Reaches(cfg, s, [AWorker(w, Oracle(None, 0))], w, {}, PromoteStep(s, w, b))
  {
    Single(cfg, s, w, AWorker(w, Oracle(None, 0)));
  }

  lemma RecheckApplies(cfg: Config, s: State, w: nat, b: nat)
    requires w < |s.workers| && s.workers[w].pc == AtRecheck(b)
    ensures Reaches(cfg, s, [AWorker(w, Oracle(None, 0))], w, {}, RecheckStep(s, w, b))
  {
    Single(cfg, s, w, AWorker(w, Oracle(None, 0)));
  }

  /** The conditional update, and the second read if it was refused. */
  method TryPromote(cfg: Config, tables: Tables, w: nat, j: nat, c: Database.Claim, b: nat, ghost s: State)
    returns (raised: Raised, ghost run: seq<Action>, ghost s': State)
    requires Stands(s, tables, w, j, c, AtPromote(b)) && b in s.db.blobs
    modifies tables`jobs
    ensures Reaches(cfg, s, run, w, {}, s')
    ensures Stands(s', tables, w, j, c, if raised.Nothing? then AtDone(b) else AtDiscard(b, raised.cause))
    ensures (tables.Contents(), raised.Nothing?) == Database.PromoteOutput(old(tables.Contents()), j, c.generation, b)
    ensures raised.Raise? ==> tables.Contents() == old(tables.Contents())
    ensures raised.Raise? ==> raised.cause == Refusal(old(tables.Contents()), j, c)
  {
    var signal := tables.PromoteOutput(j, c.generation, b);
    run, s' := [AWorker(w, Oracle(None, 0))], PromoteStep(s, w, b);
    PromoteApplies(cfg, s, w, b);
    if signal.Fine? {
      return Nothing, run, s';
    }
    raised := Raise(if signal.JobCancelled? then CancelSeen else Superseded);
    assert s' == Goto(s, w, AtRecheck(b));
    ghost var last := RecheckStep(s', w, b);
    RecheckApplies(cfg, s', w, b);
    Join(cfg, s, run, w, {}, s', run, last);
    run, s' := run + run, last;
  }

  lemma PromotionThrows(cfg: Config, s: State, tables: Tables, w: nat, j: nat, c: Database.Claim, b: nat, kind: ErrorKind)
    requires Stands(s, tables, w, j, c, AtPromote(b))
    ensures var s' := Apply(cfg, s, ARaise(w, kind));
            Reaches(cfg, s, [ARaise(w, kind)], w, {kind}, s') && Stands(s', tables, w, j, c, AtDiscard(b, Error(kind)))
  {
    Single(cfg, s, w, ARaise(w, kind));
  }

  method Discard(cfg: Config, tables: Tables, w: nat, j: nat, c: Database.Claim, b: nat, cause: Cause, ghost s: State)
    returns (ghost run: seq<Action>, ghost s': State)
    requires Stands(s, tables, w, j, c, AtDiscard(b, cause))
    modifies tables`jobs, tables`blobs, tables`bytes
    ensures Reaches(cfg, s, run, w, {}, s') && Stands(s', tables, w, j, c, Handler(cause))
    ensures tables.Contents() == DeleteBlob(old(tables.Contents()), b)
  {
    var _ := tables.DiscardBlob(b);
    run := [AWorker(w, Oracle(None, 0))];
    s' := Apply(cfg, s, run[0]);
    Single(cfg, s, w, run[0]);
    assert s' == Write(s, w, DeleteBlob(s.db, b), Handler(cause));
  }

  /** The verdict that a program counter stands for. */
  predicate Concludes(pc: Pc, status: Status, percent: Option<nat>, ttl: nat) {
    || (pc.AtDone? && status == Done && percent == Some(100))
    || (pc.AtCancelled? && status == Cancelled && percent == Some(0) && ttl == 0)
    || ((pc.AtUnsupported? || pc.AtFail?) && status == Failed && percent == None && ttl == 0)
  }

  predicate Reported(pc: Pc) {
    pc.AtFail? && pc.transient
  }

  lemma ConcludeApplies(cfg: Config, s: State, w: nat, status: Status, percent: Option<nat>, ttl: nat)
    requires w < |s.workers| && Concludes(s.workers[w].pc, status, percent, ttl)
    ensures Apply(cfg, s, AWorker(w, Oracle(None, ttl)))
            == ConcludeStep(s, w, status, percent, ttl, Reported(s.workers[w].pc))
  {
  }

  method Conclude(cfg: Config, tables: Tables, w: nat, j: nat, c: Database.Claim, status: Status, percent: Option<nat>, ttl: nat, ghost s: State)
    returns (committed: bool, ghost run: seq<Action>, ghost s': State)
    requires w < |s.workers| && Stands(s, tables, w, j, c, s.workers[w].pc)
    requires Concludes(s.workers[w].pc, status, percent, ttl)
    modifies tables`jobs, tables`events, tables`ledger, tables`notes, tables`announced, tables`bytes, tables`blobs
    ensures Reaches(cfg, s, run, w, {}, s')
    ensures Stands(s', tables, w, j, c, if committed && Reported(s.workers[w].pc) then AtDeadLetter else AtExit)
    ensures (tables.Contents(), committed) == TerminalTransition(old(tables.Contents()), j, c.generation, status, percent, ttl)
  {
    committed := tables.TerminalTransition(j, c.generation, status, percent, ttl);
    run := [AWorker(w, Oracle(None, ttl))];
    s' := ConcludeStep(s, w, status, percent, ttl, Reported(s.workers[w].pc));
    Single(cfg, s, w, run[0]);
    ConcludeApplies(cfg, s, w, status, percent, ttl);
    assert |TerminalTransition(s.db, j, c.generation, status, percent, ttl).0.jobs| == |s.db.jobs|;
  }

  lemma RetryApplies(cfg: Config, s: State, w: nat)
    requires w < |s.workers| && s.workers[w].pc.AtRetry?
    ensures Apply(cfg, s, AWorker(w, Oracle(None, 0))) == RetryStep(cfg, s, w)
  {
    hide RetryStep, ProgressStep, OutputStep, CheckStep, ClaimStep;
  }

  method ScheduleRetry(cfg: Config, tables: Tables, w: nat, j: nat, c: Database.Claim, ghost s: State)
    returns (scheduled: bool, ghost run: seq<Action>, ghost s': State)
    requires Stands(s, tables, w, j, c, AtRetry)
    modifies tables`jobs, tables`events, tables`ledger, tables`notes, tables`announced, tables`bytes, tables`blobs
    ensures Reaches(cfg, s, run, w, {}, s')
    ensures Stands(s', tables, w, j, c, if scheduled then AtExit else AtFail(true))
    ensures (tables.Contents(), scheduled) ==
              if c.attempts < cfg.maxAttempts then RetryLogged(old(tables.Contents()), j, c.generation, c.flagged, c.attempts)
              else (old(tables.Contents()), false)
  {
    hide Apply;
    scheduled := false;
    if c.attempts < cfg.maxAttempts {
      scheduled := tables.RetryTransition(j, c.generation, c.flagged, c.attempts);
    }
    run := [AWorker(w, Oracle(None, 0))];
    s' := RetryStep(cfg, s, w);
    RetryApplies(cfg, s, w);
    Single(cfg, s, w, run[0]);
    if scheduled {
      JoinPay(cfg, s, run, w, {}, s', |s.debts|);
      run, s' := run + [APay(|s.debts|)], Pay(s', |s.debts|);
    }
  }

  method ReportDeadLetter(cfg: Config, tables: Tables, w: nat, j: nat, c: Database.Claim, ghost s: State)
    returns (ghost run: seq<Action>, ghost s': State)
    requires Stands(s, tables, w, j, c, AtDeadLetter)
    modifies tables`events, tables`notes, tables`announced
    ensures Reaches(cfg, s, run, w, {}, s') && Stands(s', tables, w, j, c, AtExit)
    ensures tables.Contents() == Database.EmitDeadLetter(old(tables.Contents()), j)
  {
    tables.EmitDeadLetter(j);
    run := [AWorker(w, Oracle(None, 0))];
    s' := Apply(cfg, s, run[0]);
    Single(cfg, s, w, run[0]);
    assert s' == Write(s, w, Database.EmitDeadLetter(s.db, j), AtExit);
  }

  // ---- The `try` body ---------------------------------------------------------------------------------

  method Scan(cfg: Config, tables: Tables, reporter: ProgressReporter, w: nat, j: nat, c: Database.Claim, script: Script, ghost s: State)
    returns (raised: Raised, ghost run: seq<Action>, ghost s': State)
    requires Stands(s, tables, w, j, c, AtScan)
    requires ReportsFor(reporter, tables, j, c.generation) && reporter.Memory() == UNUSED
    modifies tables`jobs, tables`progress, reporter
    ensures Reaches(cfg, s, run, w, Kinds(script), s') && Stands(s', tables, w, j, c, Destination(raised, AtValidated))
    ensures raised == Or(script.setup, Checked(tables.Contents(), j, c))
    ensures script.setup.Some? ==> tables.Contents() == old(tables.Contents()) && tables.progress == old(tables.progress)
    ensures script.setup.None? ==>
              && reporter.Memory() == Throttle(script.clock(0), 5)
              && tables.Contents() == Database.Progress(old(tables.Contents()), j, c.generation, 5)
              && tables.progress == old(tables.progress)[j := 5]
  {
    if script.setup.Some? {
      Throws(cfg, s, tables, w, j, c, AtScan, script.setup.value);
      run := [ARaise(w, script.setup.value)];
      return Raise(Error(script.setup.value)), run, Apply(cfg, s, run[0]);
    }
    ghost var more, last;
    run, s' := FirstReport(cfg, tables, reporter, w, j, c, script.clock(0), s);
    raised, more, last := CheckCancelled(cfg, tables, w, j, c, AtValidated, s');
    Join(cfg, s, run, w, Kinds(script), s', more, last);
    run, s' := run + more, last;
  }

  method Validate(cfg: Config, tables: Tables, w: nat, j: nat, c: Database.Claim, script: Script, ghost s: State)
    returns (raised: Raised, ghost run: seq<Action>, ghost s': State)
    requires Stands(s, tables, w, j, c, AtValidated)
    modifies tables`jobs
    ensures Reaches(cfg, s, run, w, Kinds(script), s') && Stands(s', tables, w, j, c, Destination(raised, AtConvert))
    ensures raised == Or(script.probe, Checked(tables.Contents(), j, c))
    ensures tables.Contents() ==
              if script.probe.Some? then old(tables.Contents())
              else Database.Heartbeat(Database.Progress(old(tables.Contents()), j, c.generation, 10), j, c.generation)
  {
    if script.probe.Some? {
      Throws(cfg, s, tables, w, j, c, AtValidated, script.probe.value);
      run := [ARaise(w, script.probe.value)];
      return Raise(Error(script.probe.value)), run, Apply(cfg, s, run[0]);
    }
    ghost var more, last;
    run, s' := InputValidated(cfg, tables, w, j, c, s);
    more, last := Beat(cfg, tables, w, j, c, AtCheckConvert, s');
    Join(cfg, s, run, w, Kinds(script), s', more, last);
    run, s' := run + more, last;
    raised, more, last := CheckCancelled(cfg, tables, w, j, c, AtConvert, s');
    Join(cfg, s, run, w, Kinds(script), s', more, last);
    run, s' := run + more, last;
  }

  /** The tables after `n` reports of the converter show the latest one, unless the throttle dropped them all. */
  predicate ShowsReports(script: Script, n: nat, t: Throttle, db: Db, db': Db, cache: map<nat, nat>, cache': map<nat, nat>,
                         j: nat, g: nat)
    requires n <= |script.reports|
  {
    && t.lastPercent == Latest(script, n)
    && (if Repeats(script, n)
        then t == Throttle(script.clock(0), 5) && db' == db && cache' == cache
        else db' == Database.Progress(db, j, g, Latest(script, n)) && cache' == cache[j := Latest(script, n)])
  }

  lemma RepeatsFive(script: Script, n: nat)
    requires n <= |script.reports| && Repeats(script, n)
    ensures Latest(script, n) == 5
  {
    if n > 0 {
      assert RepeatsFirst(script, n - 1);
    }
  }

  lemma RepeatsOnce(script: Script, n: nat)
    requires n < |script.reports|
    ensures Repeats(script, n + 1) <==> Repeats(script, n) && RepeatsFirst(script, n)
  {
    if Repeats(script, n + 1) {
      assert RepeatsFirst(script, n);
    }
  }

  lemma OneMoreReport(script: Script, n: nat, t: Throttle, db: Db, mid: Db, cache: map<nat, nat>, shown: map<nat, nat>, j: nat, g: nat)
    requires n < |script.reports| && ShowsReports(script, n, t, db, mid, cache, shown, j, g)
    ensures var at, percent := script.clock(n + 1), script.reports[n];
            var t' := Progress.Next(t, 1.0, 1, at, percent);
            if Skips(t, 1.0, 1, at, percent) then ShowsReports(script, n + 1, t', db, mid, cache, shown, j, g)
            else ShowsReports(script, n + 1, t', db, Database.Progress(mid, j, g, Clamped(percent)), cache, shown[j := Clamped(percent)], j, g)
  {
    RepeatsOnce(script, n);
    if j < |db.jobs| {
      assert db.jobs[j := mid.jobs[j]] == mid.jobs;
    }
  }

  lemma OneMoreCall(script: Script, n: nat)
    requires n < |script.reports|
    ensures After(1.0, 1, Calls(script, n + 1)) == Progress.Next(After(1.0, 1, Calls(script, n)), 1.0, 1, script.clock(n + 1), script.reports[n])
  {
    var calls := Calls(script, n + 1);
    assert calls[..n + 1] == Calls(script, n);
    assert calls[n + 1] == Call(script.clock(n + 1), script.reports[n]);
  }

  /** The converter reports while it works: every report goes to the reporter, in order, at its time. */
  method ReportAll(cfg: Config, tables: Tables, reporter: ProgressReporter, w: nat, j: nat, c: Database.Claim, script: Script, ghost s: State)
    returns (ghost run: seq<Action>, ghost s': State)
    requires Stands(s, tables, w, j, c, AtConvert) && ReportsFor(reporter, tables, j, c.generation)
    requires reporter.Memory() == Throttle(script.clock(0), 5)
    modifies tables`jobs, tables`progress, reporter
    ensures Reaches(cfg, s, run, w, {}, s') && Stands(s', tables, w, j, c, AtConvert)
    ensures reporter.Memory() == After(1.0, 1, Calls(script, |script.reports|))
    ensures ShowsReports(script, |script.reports|, reporter.Memory(), old(tables.Contents()), tables.Contents(),
                         old(tables.progress), tables.progress, j, c.generation)
  {
    hide Exec, ByWorker, Apply, ShowsReports, Skips, Next, After, Database.Progress, Calls;
    run, s' := [], s;
    NoBeats(cfg, s, w, j);
    FirstCall(script, tables.Contents(), tables.progress, j, c.generation);
    ghost var more, last;
    var i := 0;
    while i < |script.reports|
      invariant 0 <= i <= |script.reports|
      invariant Reaches(cfg, s, run, w, {}, s') && Stands(s', tables, w, j, c, AtConvert)
      invariant reporter.Memory() == After(1.0, 1, Calls(script, i))
      invariant ShowsReports(script, i, reporter.Memory(), old(tables.Contents()), tables.Contents(),
                             old(tables.progress), tables.progress, j, c.generation)
    {
      OneMoreCall(script, i);
      OneMoreReport(script, i, reporter.Memory(), old(tables.Contents()), tables.Contents(),
                    old(tables.progress), tables.progress, j, c.generation);
      var _, more', last' := ReportOnce(cfg, tables, reporter, w, j, c, script.reports[i], script.clock(i + 1), s');
      more, last := more', last';
      Join(cfg, s, run, w, {}, s', more, last);
      run, s' := run + more, last;
      i := i + 1;
    }
  }

  lemma FirstCall(script: Script, db: Db, cache: map<nat, nat>, j: nat, g: nat)
    ensures var t := Throttle(script.clock(0), 5);
            t == After(1.0, 1, Calls(script, 0)) && ShowsReports(script, 0, t, db, db, cache, cache, j, g)
  {
    assert Calls(script, 0) == [Call(script.clock(0), 5)];
    assert [Call(script.clock(0), 5)][..0] == [];
  }

  /** The converter returns, and the attempt beats and checks. */
  method AfterConversion(cfg: Config, tables: Tables, w: nat, j: nat, c: Database.Claim, ghost s: State)
    returns (raised: Raised, ghost run: seq<Action>, ghost s': State)
    requires Stands(s, tables, w, j, c, AtConvert)
    modifies tables`jobs
    ensures Reaches(cfg, s, run, w, {}, s') && Stands(s', tables, w, j, c, Destination(raised, AtReportPromote))
    ensures tables.Contents() == Database.Heartbeat(old(tables.Contents()), j, c.generation)
    ensures raised == Checked(tables.Contents(), j, c)
  {
    hide Exec, ByWorker, Database.Heartbeat;
    ConverterReturns(cfg, s, tables, w, j, c);
    run := [AWorker(w, Oracle(None, 0))];
    s' := Apply(cfg, s, run[0]);
    hide Apply;
    ghost var more, last;
    more, last := Beat(cfg, tables, w, j, c, AtCheckPromote, s');
    Join(cfg, s, run, w, {}, s', more, last);
    run, s' := run + more, last;
    raised, more, last := CheckCancelled(cfg, tables, w, j, c, AtReportPromote, s');
    Join(cfg, s, run, w, {}, s', more, last);
    run, s' := run + more, last;
  }

  method Convert(cfg: Config, tables: Tables, reporter: ProgressReporter, w: nat, j: nat, c: Database.Claim, script: Script, ghost s: State)
    returns (raised: Raised, ghost run: seq<Action>, ghost s': State)
    requires Stands(s, tables, w, j, c, AtConvert) && ReportsFor(reporter, tables, j, c.generation)
    requires reporter.Memory() == Throttle(script.clock(0), 5)
    modifies tables`jobs, tables`progress, reporter
    ensures Reaches(cfg, s, run, w, Kinds(script), s') && Stands(s', tables, w, j, c, Destination(raised, AtReportPromote))
    ensures raised == Or(script.convert, Checked(tables.Contents(), j, c))
    ensures ConvertedFrom(script, reporter.Memory(), old(tables.Contents()), tables.Contents(),
                          old(tables.progress), tables.progress, j, c.generation)
  {
    hide Exec, Apply, ShowsReports, Database.Heartbeat, After;
    run, s' := ReportAll(cfg, tables, reporter, w, j, c, script, s);
    ghost var more, last;
    ghost var db := tables.Contents();
    if script.convert.Some? {
      Throws(cfg, s', tables, w, j, c, AtConvert, script.convert.value);
      more := [ARaise(w, script.convert.value)];
      Join(cfg, s, run, w, Kinds(script), s', more, Apply(cfg, s', more[0]));
      assert ConvertedVia(script, reporter.Memory(), old(tables.Contents()), db, db, old(tables.progress), tables.progress, j, c.generation);
      return Raise(Error(script.convert.value)), run + more, Apply(cfg, s', more[0]);
    }
    raised, more, last := AfterConversion(cfg, tables, w, j, c, s');
    Join(cfg, s, run, w, Kinds(script), s', more, last);
    run, s' := run + more, last;
    assert ConvertedVia(script, reporter.Memory(), old(tables.Contents()), db, tables.Contents(), old(tables.progress), tables.progress, j, c.generation);
  }

  /** All reports were made, and a converter that returned was followed by a beat. */
  ghost predicate ConvertedFrom(script: Script, t: Throttle, db: Db, db': Db, cache: map<nat, nat>, cache': map<nat, nat>, j: nat, g: nat) {
    exists mid: Db :: ConvertedVia(script, t, db, mid, db', cache, cache', j, g)
  }

  predicate ConvertedVia(script: Script, t: Throttle, db: Db, mid: Db, db': Db, cache: map<nat, nat>, cache': map<nat, nat>, j: nat, g: nat) {
    && ShowsReports(script, |script.reports|, t, db, mid, cache, cache', j, g)
    && db' == if script.convert.Some? then mid else Database.Heartbeat(mid, j, g)
  }

  /** Unless the output was not valid, 96 was reported; and if nothing was raised, a fresh blob was stored then. */
  ghost predicate Stored(script: Script, raised: Raised, t: Throttle, db: Db, db': Db, cache: map<nat, nat>, cache': map<nat, nat>,
                         j: nat, c: Database.Claim, maker: Maker)
    requires c.Granted?
  {
    if script.check.Some? then db' == db && cache' == cache
    else exists mid: Db :: Promoting(t, db, mid, cache, cache', j, c) && db' == if raised.Raise? then mid else PersistBlob(mid, maker)
  }

  /** Validate the output, report, and store the blob. */
  method StoreOutput(cfg: Config, tables: Tables, reporter: ProgressReporter, w: nat, j: nat, c: Database.Claim, script: Script, ghost s: State)
    returns (raised: Raised, b: nat, ghost run: seq<Action>, ghost s': State)
    requires Stands(s, tables, w, j, c, AtReportPromote) && ReportsFor(reporter, tables, j, c.generation)
    modifies tables`jobs, tables`progress, tables`made, tables`blobs, tables`bytes, reporter
    ensures Reaches(cfg, s, run, w, Kinds(script), s') && Stands(s', tables, w, j, c, Destination(raised, AtPromote(b)))
    ensures raised.Nothing? ==> b in s'.db.blobs
    ensures raised == Or(script.check, Or(script.create, Nothing))
    ensures Stored(script, raised, old(reporter.Memory()), old(tables.Contents()), tables.Contents(),
                   old(tables.progress), tables.progress, j, c, Conversion(j, c.generation, w))
    ensures raised.Nothing? ==> b == |old(tables.made)|
  {
    ghost var more, last;
    b := 0;
    if script.check.Some? {
      Throws(cfg, s, tables, w, j, c, AtReportPromote, script.check.value);
      run := [ARaise(w, script.check.value)];
      return Raise(Error(script.check.value)), b, run, Apply(cfg, s, run[0]);
    }
    run, s' := ReportPromoting(cfg, tables, reporter, w, j, c, script.clock(|script.reports| + 1), s);
    if script.create.Some? {
      Throws(cfg, s', tables, w, j, c, AtCreate, script.create.value);
      more := [ARaise(w, script.create.value)];
      Join(cfg, s, run, w, Kinds(script), s', more, Apply(cfg, s', more[0]));
      return Raise(Error(script.create.value)), b, run + more, Apply(cfg, s', more[0]);
    }
    raised := Nothing;
    b, more, last := CreateOutput(cfg, tables, w, j, c, s');
    Join(cfg, s, run, w, Kinds(script), s', more, last);
    run, s' := run + more, last;
  }

  lemma BytesGone(db: Db, b: nat)
    ensures b !in DeleteBlob(db, b).bytes
  {
  }

  /** The inner `try`: a refused or failed promotion discards the blob and raises again. */
  method Promote(cfg: Config, tables: Tables, w: nat, j: nat, c: Database.Claim, b: nat, script: Script, ghost s: State)
    returns (raised: Raised, ghost run: seq<Action>, ghost s': State)
    requires Stands(s, tables, w, j, c, AtPromote(b)) && b in s.db.blobs
    modifies tables`jobs, tables`blobs, tables`bytes
    ensures Reaches(cfg, s, run, w, Kinds(script), s') && Stands(s', tables, w, j, c, Destination(raised, AtDone(b)))
    ensures raised.Nothing? <==> script.promote.None? && Database.PromoteOutput(old(tables.Contents()), j, c.generation, b).1
    ensures raised.Nothing? ==> tables.Contents() == Database.PromoteOutput(old(tables.Contents()), j, c.generation, b).0
    ensures raised.Raise? ==> tables.Contents() == DeleteBlob(old(tables.Contents()), b) && b !in tables.bytes
    ensures raised.Raise? ==> raised == Or(script.promote, Raise(Refusal(old(tables.Contents()), j, c)))
  {
    hide Exec, Apply, DeleteBlob, Database.PromoteOutput;
    if script.promote.Some? {
      PromotionThrows(cfg, s, tables, w, j, c, b, script.promote.value);
      run := [ARaise(w, script.promote.value)];
      s' := Apply(cfg, s, run[0]);
      raised := Raise(Error(script.promote.value));
    } else {
      raised, run, s' := TryPromote(cfg, tables, w, j, c, b, s);
      if raised.Nothing? {
        return;
      }
    }
    ghost var db := tables.Contents();
    ghost var more, last := Discard(cfg, tables, w, j, c, b, raised.cause, s');
    BytesGone(db, b);
    Join(cfg, s, run, w, Kinds(script), s', more, last);
    run, s' := run + more, last;
  }

  /** DONE, unless the transaction itself raises. */
  method Finish(cfg: Config, tables: Tables, w: nat, j: nat, c: Database.Claim, b: nat, script: Script, ghost s: State)
    returns (raised: Raised, ghost run: seq<Action>, ghost s': State)
    requires Stands(s, tables, w, j, c, AtDone(b))
    modifies tables`jobs, tables`events, tables`ledger, tables`notes, tables`announced, tables`bytes, tables`blobs
    ensures Reaches(cfg, s, run, w, Kinds(script), s') && Stands(s', tables, w, j, c, Destination(raised, AtExit))
    ensures raised == Or(script.finish, Nothing)
    ensures tables.Contents() ==
              if raised.Raise? then old(tables.Contents())
              else TerminalTransition(old(tables.Contents()), j, c.generation, Done, Some(100), script.ttl).0
  {
    if script.finish.Some? {
      Throws(cfg, s, tables, w, j, c, AtDone(b), script.finish.value);
      run := [ARaise(w, script.finish.value)];
      return Raise(Error(script.finish.value)), run, Apply(cfg, s, run[0]);
    }
    var committed;
    committed, run, s' := Conclude(cfg, tables, w, j, c, Done, Some(100), script.ttl, s);
    raised := Nothing;
  }

  // ---- What the `try` body comes to while the claim is held -------------------------------------------

  lemma BeatsKeepClaim(db: Db, db': Db, j: nat, c: Database.Claim)
    requires OnlyBeats(db, db', j) && Held(db, j, c)
    ensures StillHeld(db, db', j, c) && Checked(db', j, c) == Nothing && db'.made == db.made
  {
  }

  lemma HeldOnwards(db: Db, mid: Db, db': Db, j: nat, c: Database.Claim)
    requires StillHeld(db, mid, j, c) && StillHeld(mid, db', j, c)
    ensures StillHeld(db, db', j, c)
  {
  }

  lemma StoringKeepsClaim(db: Db, mid: Db, db': Db, j: nat, c: Database.Claim, maker: Maker)
    requires OnlyBeats(db, mid, j) && db' == PersistBlob(mid, maker) && Held(db, j, c)
    ensures StillHeld(db, db', j, c) && |db.made| in db'.bytes && db'.jobs == mid.jobs
    ensures Database.PromoteOutput(db', j, c.generation, |db.made|).1
  {
  }

  lemma DiscardKeepsClaim(db: Db, j: nat, c: Database.Claim, b: nat)
    requires Held(db, j, c)
    ensures StillHeld(db, DeleteBlob(db, b), j, c) && j < |DeleteBlob(db, b).jobs|
    ensures DeleteBlob(db, b).jobs[j].percent == db.jobs[j].percent
  {
  }

  lemma PromotionKeepsClaim(db: Db, j: nat, c: Database.Claim, b: nat)
    requires Held(db, j, c)
    ensures var db' := Database.PromoteOutput(db, j, c.generation, b).0;
            && StillHeld(db, db', j, c) && db'.jobs[j].output == Some(b) && db'.bytes == db.bytes && db'.jobs[j].percent == 98
  {
  }

  /** The verdict was written on `mid`, where the claim was held and `b` promoted. */
  predicate ConcludedFrom(db: Db, mid: Db, db': Db, j: nat, c: Database.Claim, b: nat, ttl: nat) {
    && StillHeld(db, mid, j, c) && mid.jobs[j].output == Some(b) && b in mid.bytes
    && db' == TerminalTransition(mid, j, c.generation, Done, Some(100), ttl).0
  }

  lemma FinishDelivers(db: Db, stored: Db, mid: Db, db': Db, j: nat, c: Database.Claim, b: nat, ttl: nat)
    requires StillHeld(db, stored, j, c) && ConcludedFrom(stored, mid, db', j, c, b, ttl) && b == |db.made|
    ensures DeliversOwn(db, db', j, ttl) && db'.jobs[j].percent == 100
  {
  }

  lemma ReportShows(db: Db, j: nat, c: Database.Claim, percent: nat)
    requires c.Granted?
    ensures var db' := Database.Progress(db, j, c.generation, percent);
            OnlyBeats(db, db', j) && (Held(db, j, c) ==> Held(db', j, c) && db'.jobs[j].percent == percent)
  {
  }

  lemma BeatShows(db: Db, j: nat, c: Database.Claim)
    requires c.Granted?
    ensures var db' := Database.Heartbeat(db, j, c.generation);
            OnlyBeats(db, db', j) && (Held(db, j, c) ==> Held(db', j, c) && db'.jobs[j].percent == db.jobs[j].percent)
  {
  }

  lemma ValidationShows(db: Db, db': Db, j: nat, c: Database.Claim, script: Script)
    requires c.Granted?
    requires db' == if script.probe.Some? then db
                    else Database.Heartbeat(Database.Progress(db, j, c.generation, 10), j, c.generation)
    ensures OnlyBeats(db, db', j)
    ensures Held(db, j, c) ==> Held(db', j, c) && db'.jobs[j].percent == if script.probe.Some? then db.jobs[j].percent else 10
  {
    var mid := Database.Progress(db, j, c.generation, 10);
    ReportShows(db, j, c, 10);
    BeatShows(mid, j, c);
  }

  lemma ConversionShows(script: Script, t: Throttle, db: Db, db': Db, cache: map<nat, nat>, cache': map<nat, nat>, j: nat, c: Database.Claim)
    requires c.Granted? && ConvertedFrom(script, t, db, db', cache[j := 5], cache', j, c.generation)
    ensures OnlyBeats(db, db', j) && t.lastPercent == Latest(script, |script.reports|)
    ensures cache' == cache[j := Latest(script, |script.reports|)]
    ensures Held(db, j, c) && db.jobs[j].percent == 10 ==> db'.jobs[j].percent == Converted(script)
  {
    if Repeats(script, |script.reports|) {
      RepeatsFive(script, |script.reports|);
    }
    var mid :| ConvertedVia(script, t, db, mid, db', cache[j := 5], cache', j, c.generation);
    ReportShows(db, j, c, Latest(script, |script.reports|));
    BeatShows(mid, j, c);
  }

  lemma PromotingShows(script: Script, t: Throttle, db: Db, db': Db, cache: map<nat, nat>, cache': map<nat, nat>, j: nat, c: Database.Claim)
    requires Held(db, j, c) && db.jobs[j].percent == Converted(script)
    requires t.lastPercent == Latest(script, |script.reports|)
    requires Promoting(t, db, db', cache[j := Latest(script, |script.reports|)], cache', j, c)
    ensures OnlyBeats(db, db', j) && Held(db', j, c) && db'.jobs[j].percent == 96 && cache' == cache[j := 96]
  {
    if Repeats(script, |script.reports|) {
      RepeatsFive(script, |script.reports|);
    }
    ReportShows(db, j, c, 96);
  }

  lemma StoringShows(script: Script, raised: Raised, t: Throttle, db: Db, db': Db, first: map<nat, nat>, cache: map<nat, nat>,
                     cache': map<nat, nat>, j: nat, c: Database.Claim, maker: Maker)
    requires Held(db, j, c) && db.jobs[j].percent == Converted(script)
    requires t.lastPercent == Latest(script, |script.reports|) && cache == first[j := Latest(script, |script.reports|)]
    requires Stored(script, raised, t, db, db', cache, cache', j, c, maker)
    requires raised == Or(script.check, Or(script.create, Nothing))
    ensures StillHeld(db, db', j, c)
    ensures db'.jobs[j].percent == if script.check.Some? then Converted(script) else 96
    ensures cache' == first[j := if script.check.Some? then Latest(script, |script.reports|) else 96]
    ensures raised.Nothing? ==> |db.made| in db'.bytes
  {
    hide Converted, Latest, Promoting, PersistBlob, OnlyBeats, StillHeld;
    if script.check.Some? {
      StillHeldSelf(db, j, c);
    } else {
      var mid :| Promoting(t, db, mid, cache, cache', j, c) && db' == if raised.Raise? then mid else PersistBlob(mid, maker);
      PromotingShows(script, t, db, mid, first, cache', j, c);
      BeatsKeepClaim(db, mid, j, c);
      if raised.Nothing? {
        StoringKeepsClaim(db, mid, db', j, c, maker);
      }
    }
  }

  lemma StillHeldSelf(db: Db, j: nat, c: Database.Claim)
    requires Held(db, j, c)
    ensures StillHeld(db, db, j, c)
  {
  }

  /** Row and cache before the output is stored. */
  predicate Prepared(script: Script, t: Throttle, j: nat, before: nat, after: nat, cache: map<nat, nat>, cache': map<nat, nat>) {
    if script.setup.Some? then after == before && cache' == cache
    else if script.probe.Some? then after == 5 && cache' == cache[j := 5]
    else
      && after == Converted(script) && cache' == cache[j := Latest(script, |script.reports|)]
      && t.lastPercent == Latest(script, |script.reports|)
  }

  /** Before the output is stored. */
  method Prepare(cfg: Config, tables: Tables, reporter: ProgressReporter, w: nat, j: nat, c: Database.Claim, script: Script, ghost s: State)
    returns (raised: Raised, ghost run: seq<Action>, ghost s': State)
    requires Stands(s, tables, w, j, c, AtScan)
    requires ReportsFor(reporter, tables, j, c.generation) && reporter.Memory() == UNUSED
    modifies tables`jobs, tables`progress, reporter
    ensures Reaches(cfg, s, run, w, Kinds(script), s') && Stands(s', tables, w, j, c, Destination(raised, AtReportPromote))
    ensures OnlyBeats(old(tables.Contents()), tables.Contents(), j)
    ensures Held(old(tables.Contents()), j, c) ==>
              && raised == Or(script.setup, Or(script.probe, Or(script.convert, Nothing)))
              && j < |old(tables.jobs)| && j < |tables.jobs|
              && Prepared(script, reporter.Memory(), j, old(tables.jobs)[j].percent, tables.jobs[j].percent, old(tables.progress), tables.progress)
  {
    hide OnlyBeats, Exec, Reaches, Stands, Kinds, Held, Checked, Database.Progress, Database.Heartbeat, ConvertedFrom;
    ghost var more, last;
    ghost var db := tables.Contents();
    raised, run, s' := Scan(cfg, tables, reporter, w, j, c, script, s);
    ghost var db1 := tables.Contents();
    BeatsSelf(db, j);
    ReportShows(db, j, c, 5);
    if Held(db, j, c) { BeatsKeepClaim(db, db1, j, c); }
    if raised.Raise? {
      return;
    }
    raised, more, last := Validate(cfg, tables, w, j, c, script, s');
    Join(cfg, s, run, w, Kinds(script), s', more, last);
    run, s' := run + more, last;
    ghost var db2 := tables.Contents();
    ValidationShows(db1, db2, j, c, script);
    BeatsChain(db, db1, db2, j);
    if Held(db, j, c) { BeatsKeepClaim(db, db2, j, c); }
    if raised.Raise? {
      return;
    }
    raised, more, last := Convert(cfg, tables, reporter, w, j, c, script, s');
    Join(cfg, s, run, w, Kinds(script), s', more, last);
    run, s' := run + more, last;
    ConversionShows(script, reporter.Memory(), db2, tables.Contents(), old(tables.progress), tables.progress, j, c);
    BeatsChain(db, db2, tables.Contents(), j);
    if Held(db, j, c) { BeatsKeepClaim(db, tables.Contents(), j, c); }
  }

  /** From the stored output to the verdict. */
  method Deliver(cfg: Config, tables: Tables, w: nat, j: nat, c: Database.Claim, b: nat, script: Script, ghost s: State)
    returns (raised: Raised, ghost run: seq<Action>, ghost s': State)
    requires Stands(s, tables, w, j, c, AtPromote(b)) && b in s.db.blobs
    modifies tables
    ensures Reaches(cfg, s, run, w, Kinds(script), s') && Stands(s', tables, w, j, c, Destination(raised, AtExit))
    ensures tables.progress == old(tables.progress)
    ensures Held(old(tables.Contents()), j, c) && b in old(tables.bytes) ==>
              && raised == Or(script.promote, Or(script.finish, Nothing))
              && (raised.Raise? ==>
                    && StillHeld(old(tables.Contents()), tables.Contents(), j, c) && j < |old(tables.jobs)| && j < |tables.jobs|
                    && tables.jobs[j].percent == if script.promote.Some? then old(tables.jobs)[j].percent else 98)
              && (raised.Nothing? ==>
                    exists mid: Db :: ConcludedFrom(old(tables.Contents()), mid, tables.Contents(), j, c, b, script.ttl))
  {
    hide Exec, Reaches, Stands, Kinds, StillHeld, DeleteBlob, TerminalTransition;
    ghost var more, last;
    ghost var db := tables.Contents();
    if Held(db, j, c) {
      DiscardKeepsClaim(db, j, c, b);
      PromotionKeepsClaim(db, j, c, b);
    }
    raised, run, s' := Promote(cfg, tables, w, j, c, b, script, s);
    if raised.Raise? {
      return;
    }
    raised, more, last := Finish(cfg, tables, w, j, c, b, script, s');
    Join(cfg, s, run, w, Kinds(script), s', more, last);
    run, s' := run + more, last;
    assert Held(db, j, c) && b in db.bytes && raised.Nothing? ==>
      ConcludedFrom(db, Database.PromoteOutput(db, j, c.generation, b).0, tables.Contents(), j, c, b, script.ttl);
  }

  /** The outer `try` body. */
  method Body(cfg: Config, tables: Tables, reporter: ProgressReporter, w: nat, j: nat, c: Database.Claim, script: Script, ghost s: State)
    returns (raised: Raised, ghost run: seq<Action>, ghost s': State)
    requires Stands(s, tables, w, j, c, AtScan)
    requires ReportsFor(reporter, tables, j, c.generation) && reporter.Memory() == UNUSED
    modifies tables, reporter
    ensures Reaches(cfg, s, run, w, Kinds(script), s') && Stands(s', tables, w, j, c, Destination(raised, AtExit))
    ensures Held(old(tables.Contents()), j, c) ==>
              BodyEnds(old(tables.Contents()), tables.Contents(), j, c, script, raised, old(tables.progress), tables.progress)
  {
    hide OnlyBeats, Exec, Reaches, Stands, Kinds, Held, StillHeld, DeliversOwn, ConcludedFrom, Stored, Converted, Latest;
    ghost var more, last;
    ghost var db := tables.Contents();
    raised, run, s' := Prepare(cfg, tables, reporter, w, j, c, script, s);
    ghost var db1 := tables.Contents();
    if Held(db, j, c) { BeatsKeepClaim(db, db1, j, c); }
    if raised.Raise? {
      return;
    }
    ghost var memory, cache := reporter.Memory(), tables.progress;
    var b;
    raised, b, more, last := StoreOutput(cfg, tables, reporter, w, j, c, script, s');
    Join(cfg, s, run, w, Kinds(script), s', more, last);
    run, s' := run + more, last;
    ghost var db2 := tables.Contents();
    if Held(db, j, c) {
      StillHeldMeans(db, db1, j, c);
      StoringShows(script, raised, memory, db1, db2, old(tables.progress), cache, tables.progress, j, c, Conversion(j, c.generation, w));
      HeldOnwards(db, db1, db2, j, c);
      StillHeldMeans(db, db2, j, c);
    }
    if raised.Raise? {
      return;
    }
    raised, more, last := Deliver(cfg, tables, w, j, c, b, script, s');
    Join(cfg, s, run, w, Kinds(script), s', more, last);
    run, s' := run + more, last;
    if Held(db, j, c) {
      if raised.Raise? {
        HeldOnwards(db, db2, tables.Contents(), j, c);
      } else {
        ghost var held :| ConcludedFrom(db2, held, tables.Contents(), j, c, b, script.ttl);
        FinishDelivers(db, db2, held, tables.Contents(), j, c, b, script.ttl);
      }
    }
  }

  lemma StillHeldMeans(db: Db, db': Db, j: nat, c: Database.Claim)
    requires StillHeld(db, db', j, c)
    ensures Held(db', j, c) && j < |db'.jobs|
  {
  }

  // ---- The handlers -------------------------------------------------------------------------------

  /** `_handle_conversion_exception`. */
  method HandleException(cfg: Config, tables: Tables, w: nat, j: nat, c: Database.Claim, transient: bool, ghost s: State)
    returns (ghost run: seq<Action>, ghost s': State)
    requires Stands(s, tables, w, j, c, if transient then AtRetry else AtFail(false))
    modifies tables`jobs, tables`events, tables`ledger, tables`notes, tables`announced, tables`bytes, tables`blobs
    ensures Reaches(cfg, s, run, w, {}, s') && Stands(s', tables, w, j, c, AtExit)
    ensures tables.Contents() == HandledException(cfg, old(tables.Contents()), j, c, transient)
  {
    hide Exec, Apply, RetryLogged, TerminalTransition, Database.EmitDeadLetter;
    run, s' := [], s;
    NoBeats(cfg, s, w, j);
    ghost var more, last;
    if transient {
      var scheduled;
      scheduled, run, s' := ScheduleRetry(cfg, tables, w, j, c, s);
      if scheduled {
        return;
      }
    }
    var committed;
    committed, more, last := Conclude(cfg, tables, w, j, c, Failed, None, 0, s');
    Join(cfg, s, run, w, {}, s', more, last);
    run, s' := run + more, last;
    if committed && transient {
      more, last := ReportDeadLetter(cfg, tables, w, j, c, s');
      Join(cfg, s, run, w, {}, s', more, last);
      run, s' := run + more, last;
    }
  }

  /** The `except` clauses. */
  method Handle(cfg: Config, tables: Tables, w: nat, j: nat, c: Database.Claim, cause: Cause, ghost s: State)
    returns (ghost run: seq<Action>, ghost s': State)
    requires Stands(s, tables, w, j, c, Handler(cause))
    modifies tables`jobs, tables`events, tables`ledger, tables`notes, tables`announced, tables`bytes, tables`blobs
    ensures Reaches(cfg, s, run, w, {}, s') && Stands(s', tables, w, j, c, AtExit)
    ensures tables.Contents() == Handled(cfg, old(tables.Contents()), j, c, cause)
  {
    var committed;
    match cause {
      case Superseded => run, s' := [], s;
      case CancelSeen => committed, run, s' := Conclude(cfg, tables, w, j, c, Cancelled, Some(0), 0, s);
      case Error(kind) =>
        if kind.Unsupported? {
          committed, run, s' := Conclude(cfg, tables, w, j, c, Failed, None, 0, s);
        } else {
          run, s' := HandleException(cfg, tables, w, j, c, kind.Transient?, s);
        }
    }
  }

  method Claim(cfg: Config, tables: Tables, w: nat, j: nat, ghost s: State)
    returns (claim: Database.Claim, ghost run: seq<Action>, ghost s': State)
    requires s.db == tables.Contents() && s.cache == tables.progress
    requires w < |s.workers| && s.workers[w].pc.AtClaim? && s.workers[w].job == j
    modifies tables`jobs, tables`events, tables`notes, tables`announced
    ensures Reaches(cfg, s, run, w, {}, s')
    ensures claim.Granted? ==> Stands(s', tables, w, j, claim, AtScan)
    ensures claim.NotGranted? ==> s'.db == tables.Contents() && s'.cache == tables.progress
                                  && w < |s'.workers| && s'.workers[w].pc.AtExit?
    ensures (tables.Contents(), claim) == Database.ClaimJob(old(tables.Contents()), j, w)
  {
    claim := tables.ClaimJob(j, w);
    run := [AWorker(w, Oracle(None, 0))];
    s' := Apply(cfg, s, run[0]);
    Single(cfg, s, w, run[0]);
    assert s' == ClaimStep(s, w);
  }

  lemma ClaimHolds(db: Db, j: nat, w: nat)
    requires Database.ClaimJob(db, j, w).1.Granted?
    ensures var (db', c) := Database.ClaimJob(db, j, w);
            && Held(db', j, c) && !c.flagged && j < |db.jobs| && db.jobs[j].status.Active()
            && c.attempts == db.jobs[j].attempts + 1 && db'.jobs[j].request == db.jobs[j].request
            && db'.ledger == db.ledger && db'.announced == db.announced && db'.notes == db.notes && db'.made == db.made
            && db'.now == db.now && db'.jobs[j].percent == if db.jobs[j].percent == 0 then 1 else db.jobs[j].percent
  {
  }

  /** An unfinished job has no outbox row yet. */
  lemma NoNotesYet(db: Db, j: nat)
    requires Consistent(db) && j < |db.jobs| && db.jobs[j].status.Active()
    ensures Note(j, NoteDone) !in db.notes && Note(j, NoteFailed) !in db.notes && Note(j, NoteDeadLetter) !in db.notes
  {
    Unannounced(db, j, NoteDone);
    Unannounced(db, j, NoteFailed);
    Unannounced(db, j, NoteDeadLetter);
  }

  /** What a failure under a current claim comes to: a retry exactly if budget is left and nobody asked to cancel. */
  lemma HandledEnds(cfg: Config, db: Db, j: nat, c: Database.Claim, kind: ErrorKind)
    requires c.Granted? && !c.flagged && Fence(db, j, c.generation)
    requires Note(j, NoteFailed) !in db.notes && Note(j, NoteDeadLetter) !in db.notes
    ensures var db' := Handled(cfg, db, j, c, Error(kind));
            && j < |db'.jobs| && db'.ledger == db.ledger && db'.now == db.now
            && db'.jobs[j].percent == db.jobs[j].percent && db'.jobs[j].heartbeat == Some(db.now)
            && (if kind.Transient? && c.attempts < cfg.maxAttempts && !db.jobs[j].cancelRequested
                then db'.jobs[j].status.Retrying? && db'.announced == db.announced
                else db'.jobs[j].status.Failed?
                     && db'.announced == db.announced + [Note(j, NoteFailed)] + (if kind.Transient? then [Note(j, NoteDeadLetter)] else []))
  {
  }

  lemma AttemptComesTo(cfg: Config, db: Db, claimed: Db, mid: Db, db': Db, j: nat, w: nat, c: Database.Claim, script: Script, raised: Raised,
                       cache: map<nat, nat>, cache': map<nat, nat>)
    requires Consistent(db) && (claimed, c) == Database.ClaimJob(db, j, w) && c.Granted?
    requires BodyEnds(claimed, mid, j, c, script, raised, cache, cache')
    requires db' == if raised.Raise? then Handled(cfg, mid, j, c, raised.cause) else mid
    ensures AttemptEnds(cfg, db, db', j, c.attempts, script, cache, cache')
  {
    hide Consistent, Handled, Database.ClaimJob;
    ClaimHolds(db, j, w);
    NoNotesYet(db, j);
    if raised.Raise? {
      HandledEnds(cfg, mid, j, c, FirstRaise(script).value);
    }
  }

  /**
   * `run_conversion`. Seen from any state of the interleaved model in which worker `w` is about to
   * claim job `j`, the program does what some sequence of that worker's own actions does, with
   * exceptions only where the script raises them, and leaves it about to acknowledge its message.
   * Undisturbed, it comes to what the script's first exception says: a delivery of its own blob,
   * a retry, or a failure with or without a dead letter.
   */
  method RunConversion(cfg: Config, tables: Tables, w: nat, j: nat, script: Script, ghost s: State)
    returns (ghost run: seq<Action>, ghost s': State)
    requires s.db == tables.Contents() && s.cache == tables.progress
    requires w < |s.workers| && s.workers[w].pc.AtClaim? && s.workers[w].job == j
    modifies tables
    ensures Reaches(cfg, s, run, w, Kinds(script), s')
    ensures s'.db == tables.Contents() && s'.cache == tables.progress
    ensures w < |s'.workers| && s'.workers[w].pc.AtExit?
    ensures var (claimed, c) := Database.ClaimJob(old(tables.Contents()), j, w);
            && (c.NotGranted? ==> tables.Contents() == claimed)
            && (c.Granted? && Consistent(old(tables.Contents())) ==>
                  AttemptEnds(cfg, old(tables.Contents()), tables.Contents(), j, c.attempts, script, old(tables.progress), tables.progress))
  {
    hide Exec, Kinds, Held, BodyEnds, AttemptEnds, Handled, Consistent, Database.ClaimJob;
    ghost var db := tables.Contents();
    var claim;
    claim, run, s' := Claim(cfg, tables, w, j, s);
    if claim.NotGranted? {
      return;
    }
    ghost var claimed := tables.Contents();
    ClaimHolds(db, j, w);
    var reporter := new ProgressReporter(tables, j, Some(j), Some(claim.generation), 1.0, 1);
    var raised;
    ghost var more, last;
    raised, more, last := Body(cfg, tables, reporter, w, j, claim, script, s');
    Join(cfg, s, run, w, Kinds(script), s', more, last);
    run, s' := run + more, last;
    ghost var mid := tables.Contents();
    if raised.Raise? {
      more, last := Handle(cfg, tables, w, j, claim, raised.cause, s');
      Join(cfg, s, run, w, Kinds(script), s', more, last);
      run, s' := run + more, last;
    }
    if Consistent(db) {
      AttemptComesTo(cfg, db, claimed, mid, tables.Contents(), j, w, claim, script, raised, old(tables.progress), tables.progress);
    }
  }
}
