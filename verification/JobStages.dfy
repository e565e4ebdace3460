/** Jobs by stage: how many units run a job, how many live jobs wait, and what the counters
    of running and waiting jobs have to do with it
    (process1/src/manager/unit/job/job_stat.rs, job_manager.rs). */
module JobStages {
  import opened Outcomes
  import opened UnitBase
  import opened JobEntry
  import opened JobExpansion
  import opened JobTableState
  import opened JobTableInvariant
  import opened JobTableCommit
  import opened JobTableRuns
  import opened JobFinish
  import opened JobCounts
  import C = JobTableCommitIds
  import T = JobTableSteps
  import R = JobUnitRecord
  import V = JobUnitInvariant

  function RunningUnits(recs: Recs): set<UnitId> {
    set u | u in recs && recs[u].trigger.Some? && recs[u].trigger.value.stage.Running?
  }

  /** Handing a job over makes one more unit run, unless it interrupts a job that already
      does. The counter of running jobs is raised either way: an interruption leaves it
      one too high for good. */
  lemma TriggeredRuns(t: Tab, db: Db, order: seq<UnitId>, act: Option<ActionError>, us: ActiveState)
    requires TabInv(t) && AllSound(t.recs) && Enumerates(order, t.ix.tReady) && TryTrigger(t, db, order, act, us).Ok?
    requires TryTrigger(t, db, order, act, us).value.1.Triggered?
    ensures
      var (t', tried) := TryTrigger(t, db, order, act, us).value;
      |RunningUnits(t'.recs)| == |RunningUnits(t.recs)| + if tried.merged.Some? && tried.merged.value.stage.Running? then 0 else 1
  {
    if T.Next(t, order).None? {
      T.TryNothing(t, db, order, act, us);
    } else {
      T.TrySomething(t, db, order, act, us);
      T.TryTriggerAborts(t, db, order, act, us);
      var (t', tried) := TryTrigger(t, db, order, act, us).value;
      var u := tried.unit;
      HandedRuns(t.recs[u], t'.recs[u], tried.out, tried.merged, act, us);
      PutRuns(t.recs, u, t'.recs[u]);
    }
  }

  lemma PutRuns(recs: Recs, u: UnitId, r': R.Rec)
    requires u in recs && r'.trigger.Some? && r'.trigger.value.stage.Running?
    ensures
      |RunningUnits(recs[u := r'])| ==
      |RunningUnits(recs)| + if recs[u].trigger.Some? && recs[u].trigger.value.stage.Running? then 0 else 1
  {
    var units := RunningUnits(recs[u := r']);
    if u in RunningUnits(recs) {
      assert units == RunningUnits(recs);
    } else {
      assert units == RunningUnits(recs) + {u};
    }
  }

  lemma HandedRuns(r: R.Rec, r': R.Rec, out: RunOutcome, merged: Option<Job>, act: Option<ActionError>, us: ActiveState)
    requires V.Settled(r) && R.QueueSound(r) && r.ready && Handed(r, r', out, merged) && !V.TriggerAborts(r, act, us)
    ensures r'.trigger.Some? && r'.trigger.value.stage.Running?
    ensures r.trigger.Some? && r.trigger.value.stage.Running? <==> merged.Some? && merged.value.stage.Running?
  {
  }

  /** Finishing a trigger makes one unit fewer run, unless the trigger was a restart
      waiting between its phases. The counter is lowered either way: with nothing else
      running it cannot be, and the process aborts. */
  lemma FinishedRuns(t: Tab, db: Db, u: UnitId, result: JobResult)
    requires TabInv(t) && JobTableState.FinishTrigger(t, db, u, result).Ok?
    ensures
      var t' := JobTableState.FinishTrigger(t, db, u, result).value.0;
      u in t.recs && |RunningUnits(t'.recs)| == |RunningUnits(t.recs)| - if u in RunningUnits(t.recs) then 1 else 0
  {
    T.FinishTriggerInv(t, db, u, result);
    var t' := JobTableState.FinishTrigger(t, db, u, result).value.0;
    var r' := V.FinishedRec(t.recs[u], result);
    FinishRetriesIff(t.recs[u].trigger.value, result);
    assert !(r'.trigger.Some? && r'.trigger.value.stage.Running?);
    RewrittenRuns(t.recs, t'.recs, u, r');
    assert RunningUnits(t'.recs) == RunningUnits(t.recs) - {u};
  }

  lemma RewrittenRuns(recs: Recs, recs': Recs, u: UnitId, r': R.Rec)
    requires u in recs && T.Rewritten(recs, recs', u, r') && !(r'.trigger.Some? && r'.trigger.value.stage.Running?)
    ensures RunningUnits(recs') == RunningUnits(recs) - {u}
  {
    forall v ensures v in RunningUnits(recs') <==> v in RunningUnits(recs) && v != u {
      if v in recs' {
        assert Resumed(if v == u then r' else recs[v], recs'[v]);
      }
    }
  }

  /** Live jobs that are not running. */
  function Waits(t: Tab): int {
    |t.ids| - |RunningUnits(t.recs)|
  }

  lemma {:induction false} Injected(us: set<UnitId>, ids: set<nat>, f: map<UnitId, nat>)
    requires us <= f.Keys && forall u :: u in us ==> f[u] in ids
    requires forall u, v :: u in us && v in us && u != v ==> f[u] != f[v]
    ensures |us| <= |ids|
  {
    if us != {} {
      var u :| u in us;
      Injected(us - {u}, ids - {f[u]}, f);
      assert us == (us - {u}) + {u} && ids == (ids - {f[u]}) + {f[u]};
    }
  }

  lemma TriggerListed(t: Tab, u: UnitId)
    requires TabInv(t) && u in t.recs && t.recs[u].trigger.Some?
    ensures Refers(t.ids, t.recs[u].trigger.value.id, u, t.recs[u].trigger.value.kind)
  {
    var j := t.recs[u].trigger.value;
    assert HeldIn(t.recs, u, j.kind, j.id);
  }

  /** There are never more running units than live jobs. */
  lemma WaitsNonNegative(t: Tab)
    requires TabInv(t)
    ensures Waits(t) >= 0
  {
    var us := RunningUnits(t.recs);
    var f := map u | u in us :: t.recs[u].trigger.value.id;
    forall u | u in us ensures f[u] in t.ids.Keys && t.ids[f[u]].unit == u {
      TriggerListed(t, u);
    }
    Injected(us, t.ids.Keys, f);
  }

  // ----- what each step makes of them -----

  lemma KeysLess(ids: map<nat, JobRef>, id: nat)
    requires id in ids
    ensures |ids - {id}| == |ids| - 1
  {
    assert ids.Keys == (ids - {id}).Keys + {id};
  }

  /** A hand-over takes at least one job out of the waiting ones. */
  lemma TriggeredWaits(t: Tab, db: Db, order: seq<UnitId>, act: Option<ActionError>, us: ActiveState)
    requires TabInv(t) && AllSound(t.recs) && Enumerates(order, t.ix.tReady) && TryTrigger(t, db, order, act, us).Ok?
    requires TryTrigger(t, db, order, act, us).value.1.Triggered?
    ensures Waits(TryTrigger(t, db, order, act, us).value.0) <= Waits(t) - 1
  {
    TriggeredRuns(t, db, order, act, us);
    MergedListed(t, db, order, act, us);
    var (t', tried) := TryTrigger(t, db, order, act, us).value;
    if tried.merged.Some? {
      KeysLess(t.ids, tried.merged.value.id);
    }
  }

  lemma TriedIds(t: Tab, db: Db, order: seq<UnitId>, act: Option<ActionError>, us: ActiveState)
    requires AllSound(t.recs) && TryTrigger(t, db, order, act, us).Ok?
    ensures
      var (t', tried) := TryTrigger(t, db, order, act, us).value;
      t'.ids == if tried.Triggered? then Without(t.ids, tried.merged) else t.ids
  {
  }

  lemma MergedListed(t: Tab, db: Db, order: seq<UnitId>, act: Option<ActionError>, us: ActiveState)
    requires TabInv(t) && AllSound(t.recs) && Enumerates(order, t.ix.tReady) && TryTrigger(t, db, order, act, us).Ok?
    requires TryTrigger(t, db, order, act, us).value.1.Triggered?
    ensures
      var (t', tried) := TryTrigger(t, db, order, act, us).value;
      t'.ids == Without(t.ids, tried.merged) && (tried.merged.Some? ==> tried.merged.value.id in t.ids)
  {
    TriedIds(t, db, order, act, us);
    var (t', tried) := TryTrigger(t, db, order, act, us).value;
    if T.Next(t, order).None? {
      T.TryNothing(t, db, order, act, us);
    } else {
      T.TrySomething(t, db, order, act, us);
      MergedIsTrigger(t.recs[tried.unit], t'.recs[tried.unit], tried.out, tried.merged);
      if tried.merged.Some? {
        TriggerListed(t, tried.unit);
      }
    }
  }

  lemma MergedIsTrigger(r: R.Rec, r': R.Rec, out: RunOutcome, merged: Option<Job>)
    requires Handed(r, r', out, merged)
    ensures merged.Some? ==> merged == r.trigger
  {
  }

  /** A try that hands nothing over changes neither. */
  lemma UntriggeredWaits(t: Tab, db: Db, order: seq<UnitId>, act: Option<ActionError>, us: ActiveState)
    requires TabInv(t) && AllSound(t.recs) && Enumerates(order, t.ix.tReady) && TryTrigger(t, db, order, act, us).Ok?
    requires !TryTrigger(t, db, order, act, us).value.1.Triggered?
    ensures
      var t' := TryTrigger(t, db, order, act, us).value.0;
      t'.ids == t.ids && RunningUnits(t'.recs) == RunningUnits(t.recs)
  {
    TriedIds(t, db, order, act, us);
    if T.Next(t, order).None? {
      T.TryNothing(t, db, order, act, us);
    } else {
      T.TrySomething(t, db, order, act, us);
      PausedRuns(t.recs, T.Next(t, order).value.0);
    }
  }

  lemma PausedRuns(recs: Recs, u: UnitId)
    requires u in recs
    ensures RunningUnits(recs[u := recs[u].(pause := true, ready := false)]) == RunningUnits(recs)
  {
  }

  /** Finishing a trigger adds a waiting job at most if it is to be triggered again. */
  lemma FinishedWaits(t: Tab, db: Db, u: UnitId, result: JobResult)
    requires TabInv(t) && JobTableState.FinishTrigger(t, db, u, result).Ok?
    ensures
      var (t', del) := JobTableState.FinishTrigger(t, db, u, result).value;
      Waits(t') <= Waits(t) + if del.None? then 1 else 0
  {
    FinishedRuns(t, db, u, result);
    T.FinishTriggerInv(t, db, u, result);
    V.FinishEntrySettles(t.recs[u], result);
    var (t', del) := JobTableState.FinishTrigger(t, db, u, result).value;
    if del.Some? {
      TriggerListed(t, u);
      FinishedSame(t, db, u, result);
      KeysLess(t.ids, del.value.id);
    }
  }

  lemma FinishedSame(t: Tab, db: Db, u: UnitId, result: JobResult)
    requires TabInv(t) && JobTableState.FinishTrigger(t, db, u, result).Ok? && u in t.recs && t.recs[u].trigger.Some?
    ensures
      var del := JobTableState.FinishTrigger(t, db, u, result).value.1;
      del.Some? ==> del.value.id == t.recs[u].trigger.value.id
  {
    V.FinishEntrySettles(t.recs[u], result);
    V.FinishShape(t.recs[u], result);
  }

  /** Removing suspended jobs, for whatever reason, stops nobody. */
  lemma RemovedRuns(t: Tab, db: Db, u: UnitId, k1: JobKind, k2: Option<JobKind>, result: JobResult, us: ActiveState)
    requires TabInv(t) && RemoveSuspends(t, db, u, k1, k2, result, us).Ok?
    ensures RunningUnits(RemoveSuspends(t, db, u, k1, k2, result, us).value.recs) == RunningUnits(t.recs)
  {
    T.RemoveSuspendsInv(t, db, u, k1, k2, result, us);
    if u in t.recs {
      V.RemoveEntrySettles(t.recs[u], k1, k2, result, us);
      var r' := R.RemoveEntry(t.recs[u], k1, k2, result, us).value;
      RewrittenSame(t.recs, RemoveSuspends(t, db, u, k1, k2, result, us).value.recs, u, r');
    }
  }

  lemma RewrittenSame(recs: Recs, recs': Recs, u: UnitId, r': R.Rec)
    requires u in recs && T.Rewritten(recs, recs', u, r') && r'.trigger == recs[u].trigger
    ensures RunningUnits(recs') == RunningUnits(recs)
  {
    forall v ensures v in RunningUnits(recs') <==> v in RunningUnits(recs) {
      if v in recs' {
        assert Resumed(if v == u then r' else recs[v], recs'[v]);
      }
    }
  }

  lemma ResumedRuns(t: Tab, u: UnitId)
    requires TabInv(t) && ResumeUnit(t, u).Ok?
    ensures RunningUnits(ResumeUnit(t, u).value.recs) == RunningUnits(t.recs) && ResumeUnit(t, u).value.ids == t.ids
  {
    ResumeUnitCore(t, {}, u);
    AllResumedRuns(t.recs, ResumeUnit(t, u).value.recs);
  }

  lemma AllResumedRuns(recs: Recs, recs': Recs)
    requires AllResumed(recs, recs')
    ensures RunningUnits(recs') == RunningUnits(recs)
  {
    forall v ensures v in RunningUnits(recs') <==> v in RunningUnits(recs) {
      if v in recs' {
        assert Resumed(recs[v], recs'[v]);
      }
    }
  }

  lemma {:induction false} FallbackRuns(t: Tab, db: Db, active: Active, us: seq<UnitId>)
    requires TabInv(t) && Fallback(t, db, active, us).Ok?
    ensures RunningUnits(Fallback(t, db, active, us).value.recs) == RunningUnits(t.recs)
    decreases |us|
  {
    if us != [] {
      RemovedRuns(t, db, us[0], Start, Some(Verify), Dependency, StateOf(active, us[0]));
      T.RemoveSuspendsInv(t, db, us[0], Start, Some(Verify), Dependency, StateOf(active, us[0]));
      FallbackRuns(RemoveSuspends(t, db, us[0], Start, Some(Verify), Dependency, StateOf(active, us[0])).value, db, active, us[1..]);
    }
  }

  lemma FallbackOnRuns(t: Tab, db: Db, active: Active, u: UnitId, runKind: JobKind, result: JobResult)
    requires TabInv(t) && FallbackOn(t, db, active, u, runKind, result).Ok?
    ensures RunningUnits(FallbackOn(t, db, active, u, runKind, result).value.recs) == RunningUnits(t.recs)
  {
    if !result.Done? {
      FallbackRuns(t, db, active, FallbackUnits(db, u, runKind));
    }
  }

  /** The end of a trigger: one more may wait if it is to be triggered again, and every
      dependant given up waits no longer. */
  lemma DelTriggerWaits(t: Tab, db: Db, active: Active, u: UnitId, runKind: JobKind, result: JobResult)
    requires TabInv(t) && DelTrigger(t, db, active, u, runKind, result).Ok?
    ensures
      var (t', retry, between) := DelTrigger(t, db, active, u, runKind, result).value;
      Waits(t') <= Waits(t) + (if retry then 1 else 0) - (|between| - |t'.ids|)
  {
    FinishedWaits(t, db, u, result);
    T.FinishTriggerInv(t, db, u, result);
    FallbackOnRuns(JobTableState.FinishTrigger(t, db, u, result).value.0, db, active, u, runKind, result);
  }

  /** The end of a suspended job: it and every dependant given up wait no longer. */
  lemma DelSuspendsWaits(t: Tab, db: Db, active: Active, info: JobInfo, result: JobResult)
    requires TabInv(t) && DelSuspends(t, db, active, info, result).Ok?
    ensures
      var t' := DelSuspends(t, db, active, info, result).value;
      Waits(t') == Waits(t) - (|t.ids| - |t'.ids|)
  {
    var us := StateOf(active, info.unit);
    RemovedRuns(t, db, info.unit, info.kind, None, result, us);
    T.RemoveSuspendsInv(t, db, info.unit, info.kind, None, result, us);
    FallbackOnRuns(RemoveSuspends(t, db, info.unit, info.kind, None, result, us).value, db, active, info.unit, info.runKind, result);
  }

  /** A commit leaves every trigger alone. */
  lemma CommittedRuns(t: Tab, s: Stage, env: CommitEnv, order: seq<UnitId>)
    requires TabInv(t) && StageOk(s) && Enumerates(order, AllUnits(t.recs, s))
    requires Commit(t, s, env, order).Ok? && Commit(t, s, env, order).value.Committed?
    ensures RunningUnits(Commit(t, s, env, order).value.tab.recs) == RunningUnits(t.recs)
  {
    C.CommitInv(t, s, env, order);
    C.AllReady(t, s, env);
    SameTriggers(t.recs, Commit(t, s, env, order).value.tab.recs, s, env);
  }

  lemma SameTriggers(recs: Recs, recs': Recs, s: Stage, env: CommitEnv)
    requires AllCanCommit(recs, s, env) && CommittedTo(recs, recs', s, env)
    ensures RunningUnits(recs') == RunningUnits(recs)
  {
    forall u ensures u in RunningUnits(recs') <==> u in RunningUnits(recs) {
      if u in AllUnits(recs, s) {
        SameTrigger(recs, recs', s, env, u);
      }
    }
  }

  lemma SameTrigger(recs: Recs, recs': Recs, s: Stage, env: CommitEnv, u: UnitId)
    requires AllCanCommit(recs, s, env) && CommittedTo(recs, recs', s, env) && u in AllUnits(recs, s)
    ensures u in recs' ==> recs'[u].trigger == OldRec(recs, u).trigger
    ensures u !in recs' ==> OldRec(recs, u).trigger == None
  {
    assert CanCommit(recs, s, env, u);
    CommittedRecMeaning(recs, s, env, u);
    PlaceOf(recs, recs', s, env, u);
  }

  /** What a commit adds waits, and what it deletes does no longer. */
  lemma CommittedWaits(t: Tab, s: Stage, env: CommitEnv, order: seq<UnitId>)
    requires TabInv(t) && StageOk(s) && Enumerates(order, AllUnits(t.recs, s))
    requires Commit(t, s, env, order).Ok? && Commit(t, s, env, order).value.Committed?
    ensures
      var (t', ch) := (Commit(t, s, env, order).value.tab, Commit(t, s, env, order).value.changes);
      Waits(t') == Waits(t) + |ch.adds| - |ch.dels|
  {
    CommittedRuns(t, s, env, order);
    CommittedSize(t, s, env, order);
  }

  lemma CommittedSize(t: Tab, s: Stage, env: CommitEnv, order: seq<UnitId>)
    requires Commit(t, s, env, order).Ok? && Commit(t, s, env, order).value.Committed?
    ensures
      var (t', ch) := (Commit(t, s, env, order).value.tab, Commit(t, s, env, order).value.changes);
      |t'.ids| == |t.ids| + |ch.adds| - |ch.dels|
  {
    var recs := StageAll(t.recs, s, env).value;
    var adds, gone := AddedIds(t.recs, s, env), DroppedIds(t.recs, s, env) + MergedIds(recs, env);
    assert Commit(t, s, env, order).value.changes.dels == Among(t.ids + adds, gone);
    UnionSize(t.ids, adds);
    AmongSize(t.ids + adds, gone);
  }

  lemma UnionSize(a: map<nat, JobRef>, b: map<nat, JobRef>)
    requires a.Keys !! b.Keys
    ensures |a + b| == |a| + |b|
  {
    var u := a + b;
    assert u.Keys == a.Keys + b.Keys;
    assert |u.Keys| == |u| && |a.Keys| == |a| && |b.Keys| == |b|;
  }

  lemma AmongSize(m: map<nat, JobRef>, s: set<nat>)
    ensures |m - s| == |m| - |Among(m, s)|
  {
    var rest, part := m - s, Among(m, s);
    assert m.Keys == rest.Keys + part.Keys;
    assert |m.Keys| == |m| && |rest.Keys| == |rest| && |part.Keys| == |part|;
  }

  // ----- a unit leaves -----

  predicate DistinctIds(s: R.Suspends) {
    forall k, l :: k in s && l in s && k != l ==> s[k].id != s[l].id
  }

  lemma {:induction false} IdsOfSize(s: R.Suspends, ks: set<JobKind>)
    requires DistinctIds(s) && ks <= s.Keys
    ensures |IdsOf(s, ks)| == |ks|
  {
    if ks == {} {
      assert IdsOf(s, ks) == {};
    } else {
      var k :| k in ks;
      IdsOfSize(s, ks - {k});
      assert ks == (ks - {k}) + {k};
      assert IdsOf(s, ks) == IdsOf(s, ks - {k}) + {s[k].id};
    }
  }

  lemma SuspendsListed(t: Tab, u: UnitId)
    requires TabInv(t) && u in t.recs
    ensures DistinctIds(t.recs[u].suspends) && IdsOf(t.recs[u].suspends, t.recs[u].suspends.Keys) <= t.ids.Keys
  {
    var s := t.recs[u].suspends;
    forall k, l | k in s && l in s && k != l ensures s[k].id != s[l].id {
      SuspendsApart(t.recs, t.ids, u, k, l);
    }
    forall k | k in s ensures s[k].id in t.ids {
      assert HeldIn(t.recs, u, k, s[k].id);
      assert Refers(t.ids, s[k].id, u, k);
    }
  }

  lemma LessSize(ids: map<nat, JobRef>, gone: set<nat>)
    requires gone <= ids.Keys
    ensures |ids - gone| == |ids| - |gone|
  {
    var rest := ids - gone;
    assert ids.Keys == rest.Keys + gone;
    assert |ids.Keys| == |ids| && |rest.Keys| == |rest|;
  }

  lemma GoneRuns(recs: Recs, u: UnitId)
    ensures |RunningUnits(recs - {u})| == |RunningUnits(recs)| - if u in RunningUnits(recs) then 1 else 0
  {
    assert RunningUnits(recs - {u}) == RunningUnits(recs) - {u};
  }

  /** The suspended jobs of a unit that leaves wait no longer. */
  lemma RemovedUnitWaits(t: Tab, u: UnitId)
    requires TabInv(t) && u in t.recs
    ensures Waits(RemoveUnit(t, u)) <= Waits(t) - |t.recs[u].suspends|
  {
    var r := t.recs[u];
    SuspendsListed(t, u);
    IdsOfSize(r.suspends, r.suspends.Keys);
    var gone := IdsOf(r.suspends, r.suspends.Keys);
    LessSize(t.ids, gone);
    GoneRuns(t.recs, u);
    assert |r.suspends.Keys| == |r.suspends|;
    if r.trigger.Some? {
      TriggerListed(t, u);
      assert r.trigger.value.id !in gone by {
        assert TriggerApart(r);
      }
      KeysLess(t.ids - gone, r.trigger.value.id);
    }
  }

  // ----- the counter of running jobs over runs -----

  /** What a step does to the counter: a hand-over raises it; a finish, and the removal of a
      unit without a trigger, lower it. */
  function RunChange(t: Tab, db: Db, step: Step): int
    requires AllSound(t.recs)
  {
    match step
    case DoTry(order, act, us) =>
      var e := TryTrigger(t, db, order, act, us);
      if e.Ok? && e.value.1.Triggered? then 1 else 0
    case DoFinish(_, _) => -1
    case DoRemoveUnit(u) => if u in t.recs && t.recs[u].trigger.Some? then 0 else -1
    case _ => 0
  }

  /** By how much the step makes the counter too high: an interrupted running job, and a
      removed one, are never taken off it; a job finished while it waits between its phases
      is, and so is the unit removed without a trigger. */
  function Excess(t: Tab, db: Db, step: Step): int
    requires AllSound(t.recs)
  {
    match step
    case DoTry(order, act, us) =>
      var e := TryTrigger(t, db, order, act, us);
      if e.Ok? && e.value.1.Triggered? && e.value.1.merged.Some? && e.value.1.merged.value.stage.Running? then 1 else 0
    case DoFinish(u, _) => if u in RunningUnits(t.recs) then 0 else -1
    case DoRemoveUnit(u) =>
      if u in RunningUnits(t.recs) then 1 else if u in t.recs && t.recs[u].trigger.Some? then 0 else -1
    case _ => 0
  }

  lemma StepRuns(t: Tab, db: Db, step: Step, t': Tab)
    requires TabInv(t) && Takes(t, db, step, t')
    ensures |RunningUnits(t'.recs)| + Excess(t, db, step) == |RunningUnits(t.recs)| + RunChange(t, db, step)
  {
    match step {
      case DoTry(order, act, us) =>
        if TryTrigger(t, db, order, act, us).value.1.Triggered? {
          TriggeredRuns(t, db, order, act, us);
        } else {
          UntriggeredWaits(t, db, order, act, us);
        }
      case DoFinish(u, result) => FinishedRuns(t, db, u, result);
      case DoRemove(u, k1, k2, result, us) => RemovedRuns(t, db, u, k1, k2, result, us);
      case DoResume(u) => ResumedRuns(t, u);
      case DoRemoveUnit(u) => LeftRuns(t, u);
      case DoCommit(s, env, order) =>
        if Commit(t, s, env, order).value.Committed? {
          CommittedRuns(t, s, env, order);
        }
    }
  }

  lemma LeftRuns(t: Tab, u: UnitId)
    ensures |RunningUnits(RemoveUnit(t, u).recs)| == |RunningUnits(t.recs)| - if u in RunningUnits(t.recs) then 1 else 0
  {
    if u in t.recs {
      GoneRuns(t.recs, u);
    }
  }

  /** What step `i` does to the counter, and to its excess; in a run every table is sound. */
  ghost function ChangeAt(db: Db, ts: seq<Tab>, steps: seq<Step>, i: nat): int {
    if i < |ts| && i < |steps| && AllSound(ts[i].recs) then RunChange(ts[i], db, steps[i]) else 0
  }

  ghost function ExcessAt(db: Db, ts: seq<Tab>, steps: seq<Step>, i: nat): int {
    if i < |ts| && i < |steps| && AllSound(ts[i].recs) then Excess(ts[i], db, steps[i]) else 0
  }

  ghost function Sum(f: nat -> int, n: nat): int {
    if n == 0 then 0 else Sum(f, n - 1) + f(n - 1)
  }

  lemma SumNext(f: nat -> int, m: nat)
    ensures Sum(f, m + 1) == Sum(f, m) + f(m)
  {
  }

  /** The counter after the first `n` steps of a run that began with nothing running. */
  ghost function RunCount(db: Db, ts: seq<Tab>, steps: seq<Step>, n: nat): int {
    Sum((i: nat) => ChangeAt(db, ts, steps, i), n)
  }

  /** Interruptions of running jobs and removals of units that run one, less finishes of
      waiting jobs and removals of units without a trigger. */
  ghost function TotalExcess(db: Db, ts: seq<Tab>, steps: seq<Step>, n: nat): int {
    Sum((i: nat) => ExcessAt(db, ts, steps, i), n)
  }

  /** Over every run the counter is the number of running units, plus how often a running job
      was interrupted or removed, less how often a waiting one was finished or a unit without
      a trigger removed. */
  lemma {:induction false} RunCountIs(db: Db, ts: seq<Tab>, steps: seq<Step>, n: nat)
    requires IsRun(db, ts, steps) && n < |ts| && TabInv(ts[0]) && RunningUnits(ts[0].recs) == {}
    ensures RunCount(db, ts, steps, n) == |RunningUnits(ts[n].recs)| + TotalExcess(db, ts, steps, n)
  {
    if n > 0 {
      var m := n - 1;
      RunCountIs(db, ts, steps, m);
      RunKeepsInvariant(db, ts, steps, m);
      ChangesAt(db, ts, steps, m, n);
      Sums(db, ts, steps, m);
    }
  }

  lemma ChangesAt(db: Db, ts: seq<Tab>, steps: seq<Step>, m: nat, n: nat)
    requires IsRun(db, ts, steps) && n == m + 1 && n < |ts| && TabInv(ts[m])
    ensures |RunningUnits(ts[n].recs)| + ExcessAt(db, ts, steps, m) == |RunningUnits(ts[m].recs)| + ChangeAt(db, ts, steps, m)
  {
    NextRuns(db, ts, steps, m, ts[m], steps[m], ts[n]);
  }

  lemma Sums(db: Db, ts: seq<Tab>, steps: seq<Step>, m: nat)
    ensures RunCount(db, ts, steps, m + 1) == RunCount(db, ts, steps, m) + ChangeAt(db, ts, steps, m)
    ensures TotalExcess(db, ts, steps, m + 1) == TotalExcess(db, ts, steps, m) + ExcessAt(db, ts, steps, m)
  {
    SumNext((i: nat) => ChangeAt(db, ts, steps, i), m);
    SumNext((i: nat) => ExcessAt(db, ts, steps, i), m);
  }

  lemma NextRuns(db: Db, ts: seq<Tab>, steps: seq<Step>, i: nat, t: Tab, step: Step, t': Tab)
    requires IsRun(db, ts, steps) && i < |steps| && t == ts[i] && step == steps[i] && t' == ts[i + 1] && TabInv(t)
    ensures AllSound(t.recs)
    ensures |RunningUnits(t'.recs)| + Excess(t, db, step) == |RunningUnits(t.recs)| + RunChange(t, db, step)
  {
    RunStep(db, ts, steps, i, t, step, t');
    StepRuns(t, db, step, t');
  }

  /** So it goes below zero at a step exactly when that step finishes a job or removes a unit
      without a trigger, and so far waiting finishes and such removals have outnumbered
      interruptions and removals of running jobs by as many units as run now. */
  lemma RunUnderflowIff(db: Db, ts: seq<Tab>, steps: seq<Step>, n: nat)
    requires IsRun(db, ts, steps) && n < |steps| && TabInv(ts[0]) && RunningUnits(ts[0].recs) == {}
    requires RunCount(db, ts, steps, n) >= 0
    ensures RunCount(db, ts, steps, n + 1) < 0 <==>
      -TotalExcess(db, ts, steps, n) == |RunningUnits(ts[n].recs)| &&
      (steps[n].DoFinish? || (steps[n].DoRemoveUnit? && !(steps[n].unit in ts[n].recs && ts[n].recs[steps[n].unit].trigger.Some?)))
  {
    RunCountIs(db, ts, steps, n);
    Sums(db, ts, steps, n);
    RunStep(db, ts, steps, n, ts[n], steps[n], ts[n + 1]);
    ChangeMeaning(ts[n], db, steps[n]);
  }

  lemma ChangeMeaning(t: Tab, db: Db, step: Step)
    requires AllSound(t.recs)
    ensures RunChange(t, db, step) >= -1
    ensures RunChange(t, db, step) == -1 <==>
      step.DoFinish? || (step.DoRemoveUnit? && !(step.unit in t.recs && t.recs[step.unit].trigger.Some?))
  {
  }
}
