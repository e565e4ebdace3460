/** Requests and reports that the manager can receive and that end in an abort, or in jobs
    that are never done: one input for each of the conditions found elsewhere. */
module JobExamples {
  import opened Outcomes
  import opened UnitBase
  import opened JobEntry
  import opened JobExpansion
  import opened JobTransaction
  import opened JobTableState
  import opened JobTableInvariant
  import opened JobTableSteps
  import opened JobTableCommit
  import opened JobCommitBatch
  import opened JobTableBatch
  import opened JobTableRuns
  import opened JobFinish
  import opened JobSingle
  import G = JobStages
  import N = JobManager
  import U = JobUnderflow
  import W = JobVerify
  import R = JobUnitRecord
  import V = JobUnitInvariant

  /** A mode that expands dependencies and adds no stops of its own. */
  predicate Ordinary(mode: JobMode) {
    Expands(mode) && !mode.Isolate? && !mode.Trigger?
  }

  /** A stage made for a request holds the jobs asked for. */
  lemma StagedAs(s: Stage, mode: JobMode, jobs: map<UnitId, JobKind>)
    requires StageOk(s) && StageFine(s.units, s.ids, mode) && !mode.IgnoreDependencies?
    requires ItemsOf(s.units) == set u | u in jobs :: Item(u, jobs[u])
    requires forall u :: u in jobs ==> !jobs[u].Nop?
    ensures Stages(s, jobs)
  {
    forall u ensures u in s.units <==> u in jobs {
      StagedUnit(s.units, jobs, u);
    }
    forall u | u in jobs ensures OneJob(s.units[u], jobs[u]) {
      StagedUnit(s.units, jobs, u);
      assert s.units[u][jobs[u]] == NewJob(s.units[u][jobs[u]].id, u, jobs[u], mode);
    }
  }

  lemma StagedUnit(units: Units, jobs: map<UnitId, JobKind>, u: UnitId)
    requires ItemsOf(units) == (set v | v in jobs :: Item(v, jobs[v])) && (u in units ==> units[u] != map[])
    ensures u in units <==> u in jobs
    ensures u in jobs ==> units[u].Keys == {jobs[u]}
  {
    if u in units {
      var k :| k in units[u];
      assert Item(u, k) in ItemsOf(units);
    }
    if u in jobs {
      assert Item(u, jobs[u]) in ItemsOf(units);
      assert forall k :: k in units[u] ==> Item(u, k) in ItemsOf(units);
    }
  }

  // ----- a failed start leaves a unit in the batch that depends on it -----

  /** Unit 1 requires unit 0, and there are no other dependencies. */
  ghost predicate OneRequiresZero(db: Db) {
    forall u: UnitId, a: Atom ::
      Gets(db, u, a) ==
        if u == 1 && a.PullInStart? then [0]
        else if u == 0 && (a.PropagateStartFailure? || a.PropagateStop? || a.PropagateRestart?) then [1]
        else []
  }

  const START_BOTH := {Item(0, Start), Item(1, Start)}

  lemma StartOfOneStages(w: N.World, mode: JobMode, items: set<Item>)
    requires OneRequiresZero(w.db) && Ordinary(mode) && N.Requested(w, 1, Start, mode, items)
    ensures items == START_BOTH
  {
    assert Mapped(w.active, 1, Start) == Item(1, Start);
    assert Asks(w.db, Item(1, Start), 0, Start);
    assert Mapped(w.active, 0, Start) == Item(0, Start);
    forall a, v, k | a in START_BOTH && Asks(w.db, a, v, k) ensures Mapped(w.active, v, k) in START_BOTH {
      assert k.Start? && v == 0;
    }
    assert Closed(w.db, w.active, START_BOTH);
    assert Item(1, Start) in {Item(1, Start)};
  }

  /** A start of each of the units 0 and 1. */
  predicate BothStarts(jobs: map<UnitId, JobKind>) {
    jobs.Keys == {0, 1} && jobs[0] == Start && jobs[1] == Start
  }

  /** A unit outside the ready table whose record stops being ready, without related units:
      the batch stays. */
  lemma RewriteAlone(t: Tab, db: Db, u: UnitId, r': R.Rec)
    requires u in t.recs && u !in t.ix.up && u !in t.ix.tReady && !r'.ready && IsEmptyRec(r')
    requires Gets(db, u, AtomAfter) == [] && Gets(db, u, AtomBefore) == []
    ensures Rewrite(t, db, u, r').Ok?
    ensures Rewrite(t, db, u, r').value.ix == t.ix && Rewrite(t, db, u, r').value.recs == t.recs - {u}
  {
    assert t.recs[u := r'] - {u} == t.recs - {u};
    assert t.ix.up - {u} == t.ix.up && t.ix.tReady - {u} == t.ix.tReady;
  }

  /** Unit 1 waits in the batch, and has gone. */
  ghost predicate Stranded(t: Tab) {
    TabInv(t) && t.ix.readys == [1] && 1 !in t.recs
  }

  lemma StartFinished(r: R.Rec, k: JobKind, result: JobResult)
    requires Works(r, k) && !k.Restart?
    ensures CanFinish(r.trigger.value) && R.FinishEntry(r, result).Ok?
    ensures R.FinishEntry(r, result).value.0 == V.FinishedRec(r, result)
    ensures IsEmptyRec(V.FinishedRec(r, result)) && !V.FinishedRec(r, result).ready
  {
    WorksIdle(r, k);
    V.FinishShape(r, result);
    FinishRetriesIff(r.trigger.value, result);
  }

  /** The start of unit 0 is over; unit 1 stays where it is. */
  lemma ZeroFinished(t: Tab, db: Db)
    requires TabInv(t) && OneRequiresZero(db) && t.ix.readys == [1] && 0 in t.recs && 1 in t.recs && Works(t.recs[0], Start)
    ensures JobTableState.FinishTrigger(t, db, 0, Failed).Ok?
    ensures
      var t' := JobTableState.FinishTrigger(t, db, 0, Failed).value.0;
      TabInv(t') && t'.ix == t.ix && t'.recs == t.recs - {0}
  {
    StartFinished(t.recs[0], Start, Failed);
    RewriteAlone(t, db, 0, V.FinishedRec(t.recs[0], Failed));
    FinishTriggerInv(t, db, 0, Failed);
  }

  /** And takes the start of unit 1 with it. */
  lemma OneGivenUp(t: Tab, db: Db, active: Active)
    requires TabInv(t) && OneRequiresZero(db) && t.ix.readys == [1] && 1 in t.recs && Pends(t.recs[1], Start, false)
    ensures RemoveSuspends(t, db, 1, Start, Some(Verify), Dependency, StateOf(active, 1)).Ok?
    ensures Stranded(RemoveSuspends(t, db, 1, Start, Some(Verify), Dependency, StateOf(active, 1)).value)
  {
    var r, us := t.recs[1], StateOf(active, 1);
    PendsReady(r, Start, false);
    V.RemoveEntrySettles(r, Start, Some(Verify), Dependency, us);
    assert V.Remaining(r.suspends, Start, Some(Verify)) == map[];
    var r' := R.RemoveEntry(r, Start, Some(Verify), Dependency, us).value;
    assert R.QueueOf(map[]) == [];
    assert t.ix.tReady == {} == t.ix.up;
    RewriteAlone(t, db, 1, r');
    RemoveSuspendsInv(t, db, 1, Start, Some(Verify), Dependency, us);
  }

  lemma ZeroFails(t: Tab, db: Db, active: Active)
    requires TabInv(t) && OneRequiresZero(db) && t.ix.readys == [1] && 0 in t.recs && Works(t.recs[0], Start)
    requires 1 in t.recs && Pends(t.recs[1], Start, false)
    ensures DelTrigger(t, db, active, 0, Start, Failed).Ok?
    ensures Stranded(DelTrigger(t, db, active, 0, Start, Failed).value.0)
  {
    ZeroFinished(t, db);
    var t1 := JobTableState.FinishTrigger(t, db, 0, Failed).value.0;
    OneGivenUp(t1, db, active);
    assert FallbackUnits(db, 0, Start) == [1];
    var t2 := RemoveSuspends(t1, db, 1, Start, Some(Verify), Dependency, StateOf(active, 1)).value;
    assert [1][1..] == [];
    assert Fallback(t2, db, active, []) == Ok(t2);
    assert Fallback(t1, db, active, [1]) == Ok(t2);
  }

  lemma FailureSettles(t: Tab, db: Db, active: Active) returns (t': Tab)
    requires TabInv(t) && OneRequiresZero(db) && t.ix.readys == [1] && 0 in t.recs && Works(t.recs[0], Start)
    requires 1 in t.recs && Pends(t.recs[1], Start, false)
    ensures SettleTab(t, db, active, 0, Finished(Failed), None) == Ok(t') && Stranded(t')
  {
    ZeroFails(t, db, active);
    G.TriggerListed(t, 0);
    t' := DelTrigger(t, db, active, 0, Start, Failed).value.0;
  }

  lemma NoOrder(db: Db, recs: Recs, u: UnitId, j: Job)
    requires OneRequiresZero(db)
    ensures MayGo(recs, db, u, j)
  {
    assert Gets(db, u, AtomAfter) == [] && Gets(db, u, AtomBefore) == [];
  }

  /** Unit 0 is tried first, and its start fails. */
  predicate ZeroFirst(order: seq<UnitId>, a: Answer) {
    order == [1] + [0] && a.act == Some(EFailed) && a.us.UnitInActive? && a.note.None?
  }

  lemma ZeroHanded(t: Tab, db: Db, order: seq<UnitId>, act: Option<ActionError>, jobs: map<UnitId, JobKind>) returns (t': Tab)
    requires AllPend(t, jobs) && BothStarts(jobs) && AllSound(t.recs) && MayGo(t.recs, db, 0, t.recs[0].suspends[Start])
    requires order == [1] + [0] && Enumerates(order, jobs.Keys) && act != Some(EAgain)
    ensures TryTrigger(t, db, order, act, UnitInActive) == Ok((t', Triggered(0, AnswerOf(act), None)))
    ensures TabInv(t') && t'.ix.readys == [1] && 0 in t'.recs && Works(t'.recs[0], Start)
    ensures 1 in t'.recs && Pends(t'.recs[1], Start, false)
  {
    t' := FirstHanded(t, db, order, [1], 0, jobs, act);
    OthersPend(t.recs, t'.recs, jobs, 0, 1);
  }

  /** The round in which it happens. */
  lemma FirstRound(t: Tab, db: Db, active: Active, order: seq<UnitId>, a: Answer, jobs: map<UnitId, JobKind>) returns (t': Tab)
    requires AllPend(t, jobs) && BothStarts(jobs) && OneRequiresZero(db) && AllSound(t.recs)
    requires ZeroFirst(order, a) && Enumerates(order, jobs.Keys)
    ensures RoundTab(t, db, active, order, a) == Ok((t', true)) && Stranded(t')
  {
    NoOrder(db, t.recs, 0, t.recs[0].suspends[Start]);
    var t1 := ZeroHanded(t, db, order, a.act, jobs);
    t' := FailureSettles(t1, db, active);
    FailedAnswer(a.act);
    RoundOf(t, db, active, order, a, t1, 0, Finished(Failed), None, t');
  }

  lemma FailedAnswer(act: Option<ActionError>)
    requires act == Some(EFailed)
    ensures AnswerOf(act) == Finished(Failed)
  {
  }

  lemma StrandedPanics(t: Tab, db: Db, active: Active, order: seq<UnitId>, a: Answer)
    requires Stranded(t) && AllSound(t.recs) && Enumerates(order, t.ix.tReady)
    ensures RoundTab(t, db, active, order, a).Panic?
  {
    StrandedAborts(t, db, order, a.act, a.us);
  }

  lemma ItemsOfBoth(jobs: map<UnitId, JobKind>)
    requires BothStarts(jobs)
    ensures START_BOTH == set u | u in jobs :: Item(u, jobs[u])
  {
    var items := set u | u in jobs :: Item(u, jobs[u]);
    assert Item(0, jobs[0]) in items && Item(1, jobs[1]) in items;
  }

  lemma BothExist() returns (jobs: map<UnitId, JobKind>)
    ensures BothStarts(jobs)
  {
    jobs := map[0 := Start, 1 := Start];
  }

  lemma RequestStages(w: N.World, mode: JobMode, s: Stage) returns (jobs: map<UnitId, JobKind>)
    requires OneRequiresZero(w.db) && Ordinary(mode) && N.Requested(w, 1, Start, mode, ItemsOf(s.units))
    requires StageFine(s.units, s.ids, mode) && StageOk(s)
    ensures Stages(s, jobs) && BothStarts(jobs)
  {
    jobs := BothExist();
    StartOfOneStages(w, mode, ItemsOf(s.units));
    ItemsOfBoth(jobs);
    StagedAs(s, mode, jobs);
  }

  /** A unit that is required by another fails to start while the other waits in the batch:
      the other's start is given up, but not its place, and the next round aborts. */
  lemma FailedStartStrands(t: Tab, s: Stage, w: N.World, mode: JobMode, visit: seq<UnitId>, order: seq<UnitId>, a: Answer)
    returns (t1: Tab, t2: Tab)
    requires Idle(t) && OneRequiresZero(w.db) && Ordinary(mode) && !mode.Flush? && Enumerates(visit, {0, 1})
    requires N.Requested(w, 1, Start, mode, ItemsOf(s.units)) && StageFine(s.units, s.ids, mode) && StageOk(s)
    requires ZeroFirst(order, a)
    ensures Takes(t, w.db, DoCommit(s, N.EnvOf(w, mode), visit), t1) && AllSound(t1.recs) && Enumerates(order, t1.ix.tReady)
    ensures RoundTab(t1, w.db, w.active, order, a) == Ok((t2, true)) && AllSound(t2.recs)
    ensures forall order2, a2 :: Enumerates(order2, t2.ix.tReady) ==> RoundTab(t2, w.db, w.active, order2, a2).Panic?
  {
    var jobs := RequestStages(w, mode, s);
    t1, t2 := StrandedRun(t, s, w.db, w.active, N.EnvOf(w, mode), visit, order, a, jobs);
  }

  lemma StrandedRun(t: Tab, s: Stage, db: Db, active: Active, env: CommitEnv, visit: seq<UnitId>, order: seq<UnitId>, a: Answer,
                    jobs: map<UnitId, JobKind>)
    returns (t1: Tab, t2: Tab)
    requires Idle(t) && OneRequiresZero(db) && !env.isolate && Stages(s, jobs) && BothStarts(jobs) && Enumerates(visit, jobs.Keys)
    requires ZeroFirst(order, a)
    ensures Takes(t, db, DoCommit(s, env, visit), t1) && AllSound(t1.recs) && Enumerates(order, t1.ix.tReady)
    ensures RoundTab(t1, db, active, order, a) == Ok((t2, true)) && AllSound(t2.recs)
    ensures forall order2, a2 :: Enumerates(order2, t2.ix.tReady) ==> RoundTab(t2, db, active, order2, a2).Panic?
  {
    t1 := CommitIntoIdle(t, db, s, env, visit, jobs);
    CoreSound(t1, {});
    t2 := StrandedRounds(t1, db, active, order, a, jobs);
  }

  lemma StrandedRounds(t1: Tab, db: Db, active: Active, order: seq<UnitId>, a: Answer, jobs: map<UnitId, JobKind>) returns (t2: Tab)
    requires AllPend(t1, jobs) && BothStarts(jobs) && OneRequiresZero(db) && AllSound(t1.recs) && ZeroFirst(order, a)
    ensures Enumerates(order, t1.ix.tReady)
    ensures RoundTab(t1, db, active, order, a) == Ok((t2, true)) && AllSound(t2.recs)
    ensures forall order2, a2 :: Enumerates(order2, t2.ix.tReady) ==> RoundTab(t2, db, active, order2, a2).Panic?
  {
    assert Members(order) == {0, 1};
    t2 := FirstRound(t1, db, active, order, a, jobs);
    CoreSound(t2, {});
    forall order2, a2 | Enumerates(order2, t2.ix.tReady) ensures RoundTab(t2, db, active, order2, a2).Panic? {
      StrandedPanics(t2, db, active, order2, a2);
    }
  }

  // ----- a restart of one of two units that require each other -----

  /** Units 0 and 1 require each other, and there are no other dependencies. */
  ghost predicate RequireEachOther(db: Db) {
    forall u: UnitId, a: Atom ::
      Gets(db, u, a) ==
        if u <= 1 && (a.PullInStart? || a.PropagateStartFailure? || a.PropagateStop? || a.PropagateRestart?) then [1 - u] else []
  }

  predicate InPair(x: Item) {
    x.unit <= 1 && (x.kind.Start? || x.kind.Restart?)
  }

  const PAIR := {Item(0, Start), Item(0, Restart), Item(1, Start), Item(1, Restart)}

  lemma PairMeaning(x: Item)
    ensures x in PAIR <==> InPair(x)
  {
  }

  lemma PairAsks(w: N.World, a: Item, v: UnitId, k: JobKind)
    requires RequireEachOther(w.db) && ActiveOrReloading(StateOf(w.active, 0)) && ActiveOrReloading(StateOf(w.active, 1))
    requires InPair(a)
    ensures Asks(w.db, a, v, k) <==> v == 1 - a.unit && (k.Start? || (k.TryRestart? && a.kind.Restart?))
    ensures Asks(w.db, a, v, k) ==> InPair(Mapped(w.active, v, k))
  {
  }

  /** Restarting one of them restarts and starts both, if they are active. */
  lemma RestartStagesPair(w: N.World, mode: JobMode, items: set<Item>)
    requires RequireEachOther(w.db) && ActiveOrReloading(StateOf(w.active, 0)) && ActiveOrReloading(StateOf(w.active, 1))
    requires Ordinary(mode) && N.Requested(w, 0, Restart, mode, items)
    ensures items == PAIR
  {
    var root := Item(0, Restart);
    assert Mapped(w.active, 0, Restart) == root && root in {root};
    PairAsks(w, root, 1, Start);
    PairAsks(w, root, 1, TryRestart);
    assert Mapped(w.active, 1, Start) == Item(1, Start) && Mapped(w.active, 1, TryRestart) == Item(1, Restart);
    PairAsks(w, Item(1, Restart), 0, Start);
    assert Mapped(w.active, 0, Start) == Item(0, Start);
    assert PAIR <= items;
    forall a, v, k | a in PAIR && Asks(w.db, a, v, k) ensures Mapped(w.active, v, k) in PAIR {
      PairMeaning(a);
      PairAsks(w, a, v, k);
      PairMeaning(Mapped(w.active, v, k));
    }
    assert Closed(w.db, w.active, PAIR) && {root} <= PAIR;
  }

  /** No start is suspended or running anywhere. */
  predicate NoStartLive(recs: Recs) {
    forall u :: u in recs ==> Start !in recs[u].suspends && (recs[u].trigger.Some? ==> !recs[u].trigger.value.kind.Start?)
  }

  lemma PairKinds(s: Stage, recs: Recs, env: CommitEnv)
    requires ItemsOf(s.units) == PAIR && NoStartLive(recs)
    ensures Item(0, Start) in U.BornDead(recs, s, env)
  {
    assert Item(0, Start) in PAIR && Item(0, Restart) in PAIR && Item(0, Stop) !in PAIR;
    assert Item(0, Stop) !in ItemsOf(s.units) && 0 in s.units && Start in s.units[0] && Restart in s.units[0];
    assert R.HasOther(s.units[0]);
    assert U.SwallowedAt(recs, s, env, 0, Start);
  }

  lemma NoStartKept(recs: Recs, s: Stage, env: CommitEnv)
    requires NoStartLive(recs)
    ensures U.Only(U.LiveKept(recs, s, env), Start) == {} == U.Only(U.TriggerItems(recs), Start)
  {
  }

  lemma PairConsistent(s: Stage)
    requires ItemsOf(s.units) == PAIR
    ensures W.SelfConsistent(s.units)
  {
    forall u | u in s.units ensures Stop !in s.units[u] {
      assert Item(u, Stop) !in ItemsOf(s.units);
    }
  }

  /** A restart of one of two active units that require each other. The check lets it through
      when nothing is live; and wherever no start is live the process aborts on it: both starts
      it stages are swallowed by the restarts beside them, and taken off the counter of starts
      before they are added to it. */
  lemma RestartOfPairAborts(w: N.World, mode: JobMode, s: Stage, recs: Recs, wait: nat)
    requires RequireEachOther(w.db) && ActiveOrReloading(StateOf(w.active, 0)) && ActiveOrReloading(StateOf(w.active, 1))
    requires Ordinary(mode) && N.Requested(w, 0, Restart, mode, ItemsOf(s.units)) && NoStartLive(recs)
    ensures W.VerifyStage(s.units, map[], mode) == Ok(true)
    ensures N.Unfit(recs, s, N.EnvOf(w, mode), wait)
  {
    var env := N.EnvOf(w, mode);
    RestartStagesPair(w, mode, ItemsOf(s.units));
    PairConsistent(s);
    W.VerifyMeaning(s.units, map[], mode);
    PairKinds(s, recs, env);
    NoStartKept(recs, s, env);
    assert Item(0, Start) in U.Only(U.BornDead(recs, s, env), Start);
  }

  // ----- a report between the phases of a restart -----

  /** A restart that waits between two of its phases. */
  predicate BetweenPhases(r: R.Rec) {
    V.Settled(r) && !r.pause && r.trigger.Some? && r.trigger.value.kind.Restart? && r.trigger.value.runKind.Start? && r.trigger.value.stage.Wait?
  }

  lemma StopPhaseOver(r: R.Rec)
    requires Works(r, Restart)
    ensures CanFinish(r.trigger.value) && BetweenPhases(V.FinishedRec(r, Done)) && !IsEmptyRec(V.FinishedRec(r, Done))
    ensures R.FinishEntry(r, Done).Ok? && R.FinishEntry(r, Done).value.0 == V.FinishedRec(r, Done)
  {
    V.FinishShape(r, Done);
    FinishRetriesIff(r.trigger.value, Done);
    V.FinishEntrySettles(r, Done);
  }

  lemma FinishGoes(t: Tab, db: Db, u: UnitId) returns (t': Tab)
    requires TabInv(t) && u in t.recs && t.recs[u].trigger.Some? && Unordered(db, u)
    ensures CanFinish(t.recs[u].trigger.value) && JobTableState.FinishTrigger(t, db, u, Done).Ok?
    ensures t' == JobTableState.FinishTrigger(t, db, u, Done).value.0 && TabInv(t')
    ensures Rewritten(t.recs, t'.recs, u, V.FinishedRec(t.recs[u], Done))
  {
    FinishTriggerAborts(t, db, u, Done);
    FinishTriggerInv(t, db, u, Done);
    t' := JobTableState.FinishTrigger(t, db, u, Done).value.0;
  }

  lemma FinishTakes(t: Tab, db: Db, u: UnitId, t': Tab)
    requires TabInv(t) && JobTableState.FinishTrigger(t, db, u, Done).Ok? && t' == JobTableState.FinishTrigger(t, db, u, Done).value.0
    ensures Takes(t, db, DoFinish(u, Done), t')
  {
    CoreSound(t, {});
  }

  /** A report that ends the phase well finishes the trigger. */
  lemma ReportFinishes(t: Tab, db: Db, active: Active, n: Note) returns (t': Tab)
    requires TabInv(t) && n.unit in t.recs && t.recs[n.unit].trigger.Some? && !t.recs[n.unit].pause && Unordered(db, n.unit)
    requires ProcessUnit(t.recs[n.unit].trigger.value.runKind, n.ns, n.reloadFailure).Ok?
    requires ProcessUnit(t.recs[n.unit].trigger.value.runKind, n.ns, n.reloadFailure).value.0 == Some(Done)
    ensures EndsTrigger(t, n) && DoTryFinish(t, db, active, n) == Ok(t') && TabInv(t')
    ensures CanFinish(t.recs[n.unit].trigger.value) && Rewritten(t.recs, t'.recs, n.unit, V.FinishedRec(t.recs[n.unit], Done))
    ensures Takes(t, db, DoFinish(n.unit, Done), t')
  {
    t' := FinishGoes(t, db, n.unit);
    FinishTakes(t, db, n.unit, t');
    var runKind := t.recs[n.unit].trigger.value.runKind;
    assert FallbackOn(t', db, active, n.unit, runKind, Done) == Ok(t');
  }

  /** A report that its stop phase is over leaves a restart between its phases. */
  lemma FirstReport(t: Tab, db: Db, active: Active, n: Note) returns (t': Tab)
    requires TabInv(t) && n.unit in t.recs && Works(t.recs[n.unit], Restart) && Unordered(db, n.unit)
    requires n.ns.UnitInActive? || n.ns.UnitFailed?
    ensures DoTryFinish(t, db, active, n) == Ok(t') && TabInv(t') && Takes(t, db, DoFinish(n.unit, Done), t')
    ensures n.unit in t'.recs && BetweenPhases(t'.recs[n.unit])
  {
    t' := ReportFinishes(t, db, active, n);
    StopPhaseOver(t.recs[n.unit]);
    assert Resumed(V.FinishedRec(t.recs[n.unit], Done), t'.recs[n.unit]);
  }

  /** Another report, before the manager has triggered the start phase, finishes it. */
  lemma SecondReport(t: Tab, db: Db, active: Active, n: Note) returns (t': Tab)
    requires TabInv(t) && n.unit in t.recs && BetweenPhases(t.recs[n.unit]) && Unordered(db, n.unit)
    requires n.ns.UnitActive? || n.ns.UnitInActive?
    ensures EndsTrigger(t, n) && DoTryFinish(t, db, active, n) == Ok(t') && Takes(t, db, DoFinish(n.unit, Done), t')
  {
    t' := ReportFinishes(t, db, active, n);
  }

  lemma TwoSteps(db: Db, t0: Tab, t1: Tab, t2: Tab, s1: Step, s2: Step)
    requires Takes(t0, db, s1, t1) && Takes(t1, db, s2, t2)
    ensures IsRun(db, [t0, t1, t2], [s1, s2])
  {
  }

  lemma FourSteps(db: Db, t0: Tab, t1: Tab, t2: Tab, t3: Tab, t4: Tab, s1: Step, s2: Step, s3: Step, s4: Step)
    requires Takes(t0, db, s1, t1) && Takes(t1, db, s2, t2) && Takes(t2, db, s3, t3) && Takes(t3, db, s4, t4)
    ensures IsRun(db, [t0, t1, t2, t3, t4], [s1, s2, s3, s4])
  {
    TwoSteps(db, t0, t1, t2, s1, s2);
    TwoSteps(db, t2, t3, t4, s3, s4);
    JoinRuns(db, [t0, t1, t2], [s1, s2], [t2, t3, t4], [s3, s4]);
    assert [t0, t1, t2] + [t2, t3, t4][1..] == [t0, t1, t2, t3, t4];
    assert [s1, s2] + [s3, s4] == [s1, s2, s3, s4];
  }

  lemma CountFour(db: Db, ts: seq<Tab>, steps: seq<Step>)
    requires IsRun(db, ts, steps) && |steps| == 4
    ensures forall i :: 0 <= i < 4 ==> AllSound(ts[i].recs)
    ensures G.RunCount(db, ts, steps, 3) == G.RunChange(ts[0], db, steps[0]) + G.RunChange(ts[1], db, steps[1]) + G.RunChange(ts[2], db, steps[2])
    ensures G.RunCount(db, ts, steps, 4) == G.RunCount(db, ts, steps, 3) + G.RunChange(ts[3], db, steps[3])
  {
    forall i | 0 <= i < 4 ensures AllSound(ts[i].recs) {
      assert Takes(ts[i], db, steps[i], ts[i + 1]);
    }
    forall i | 0 <= i < 4
      ensures G.RunCount(db, ts, steps, i + 1) == G.RunCount(db, ts, steps, i) + G.ChangeAt(db, ts, steps, i)
    {
      G.Sums(db, ts, steps, i);
    }
  }

  ghost predicate FallsBelowZero(db: Db, ts: seq<Tab>, steps: seq<Step>) {
    |steps| == 4 && IsRun(db, ts, steps) && G.RunCount(db, ts, steps, 3) == 0 && G.RunCount(db, ts, steps, 4) < 0
  }

  /** Of a commit, a hand-over and two finishes. */
  lemma OneUpTwoDown(db: Db, t0: Tab, t1: Tab, t2: Tab, t3: Tab, t4: Tab, s1: Step, s2: Step, s3: Step, s4: Step)
    returns (ts: seq<Tab>, steps: seq<Step>)
    requires Takes(t0, db, s1, t1) && Takes(t1, db, s2, t2) && Takes(t2, db, s3, t3) && Takes(t3, db, s4, t4)
    requires s1.DoCommit? && HandsOver(t1, db, s2) && s3.DoFinish? && s4.DoFinish?
    ensures FallsBelowZero(db, ts, steps) && ts[0] == t0 && ts[2] == t2 && ts[3] == t3 && ts[4] == t4
    ensures steps[0] == s1 && steps[1] == s2
  {
    ts, steps := [t0, t1, t2, t3, t4], [s1, s2, s3, s4];
    FourSteps(db, t0, t1, t2, t3, t4, s1, s2, s3, s4);
    CountFour(db, ts, steps);
  }

  /** One report after the other; the second still finds a trigger to finish. */
  predicate Reported(t: Tab, t1: Tab, t2: Tab, db: Db, active: Active, n1: Note, n2: Note) {
    DoTryFinish(t, db, active, n1) == Ok(t1) && EndsTrigger(t1, n2) && DoTryFinish(t1, db, active, n2) == Ok(t2)
  }

  /** A restart that goes through its stop phase, and a second report about its unit: the
      counter of running jobs goes below zero, so the process aborts. */
  lemma WaitingReportUnderflows(t: Tab, db: Db, s: Stage, env: CommitEnv, active: Active, jobs: map<UnitId, JobKind>, u: UnitId, order: seq<UnitId>,
                                act: Option<ActionError>, n1: Note, n2: Note)
    returns (ts: seq<Tab>, steps: seq<Step>)
    requires Idle(t) && Stages(s, jobs) && !env.isolate && jobs.Keys == {u} && jobs[u] == Restart && Unordered(db, u) && order == [] + [u]
    requires act != Some(EAgain)
    requires n1.unit == n2.unit == u && (n1.ns.UnitInActive? || n1.ns.UnitFailed?) && (n2.ns.UnitActive? || n2.ns.UnitInActive?)
    ensures FallsBelowZero(db, ts, steps) && ts[0] == t
    ensures steps[0] == DoCommit(s, env, order) && steps[1] == DoTry(order, act, UnitInActive)
    ensures Reported(ts[2], ts[3], ts[4], db, active, n1, n2)
  {
    var t1, t2, s2 := OneHanded(t, db, s, env, jobs, u, order, act);
    ts, steps := ReportsUnderflow(t, t1, t2, DoCommit(s, env, order), s2, db, active, n1, n2);
  }

  lemma ReportsUnderflow(t: Tab, t1: Tab, t2: Tab, s1: Step, s2: Step, db: Db, active: Active, n1: Note, n2: Note)
    returns (ts: seq<Tab>, steps: seq<Step>)
    requires Takes(t, db, s1, t1) && Takes(t1, db, s2, t2) && s1.DoCommit? && HandsOver(t1, db, s2)
    requires TabInv(t2) && n1.unit == n2.unit && n1.unit in t2.recs && Works(t2.recs[n1.unit], Restart) && Unordered(db, n1.unit)
    requires (n1.ns.UnitInActive? || n1.ns.UnitFailed?) && (n2.ns.UnitActive? || n2.ns.UnitInActive?)
    ensures FallsBelowZero(db, ts, steps) && ts[0] == t && steps[0] == s1 && steps[1] == s2
    ensures Reported(ts[2], ts[3], ts[4], db, active, n1, n2)
  {
    var t3, t4 := BothReports(t2, db, active, n1, n2);
    ts, steps := OneUpTwoDown(db, t, t1, t2, t3, t4, s1, s2, DoFinish(n1.unit, Done), DoFinish(n2.unit, Done));
  }

  lemma BothReports(t: Tab, db: Db, active: Active, n1: Note, n2: Note) returns (t1: Tab, t2: Tab)
    requires TabInv(t) && n1.unit == n2.unit && n1.unit in t.recs && Works(t.recs[n1.unit], Restart) && Unordered(db, n1.unit)
    requires (n1.ns.UnitInActive? || n1.ns.UnitFailed?) && (n2.ns.UnitActive? || n2.ns.UnitInActive?)
    ensures Takes(t, db, DoFinish(n1.unit, Done), t1) && Takes(t1, db, DoFinish(n2.unit, Done), t2)
    ensures Reported(t, t1, t2, db, active, n1, n2)
  {
    t1 := FirstReport(t, db, active, n1);
    t2 := SecondReport(t1, db, active, n2);
  }
}
