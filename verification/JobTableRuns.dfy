/** Runs of the job table: the invariant in every state of every run, and order
    safety between commits. */
module JobTableRuns {
  import opened Outcomes
  import opened UnitBase
  import opened JobEntry
  import opened JobTableState
  import opened JobTableIndex
  import opened JobTableInvariant
  import opened JobTableSteps
  import opened JobTableCommit
  import C = JobTableCommitIds
  import R = JobUnitRecord
  import V = JobUnitInvariant

  datatype Step =
    | DoCommit(stage: Stage, env: CommitEnv, order: seq<UnitId>)
    | DoTry(order: seq<UnitId>, act: Option<ActionError>, us: ActiveState)
    | DoFinish(unit: UnitId, result: JobResult)
    | DoRemove(unit: UnitId, k1: JobKind, k2: Option<JobKind>, result: JobResult, us: ActiveState)
    | DoResume(unit: UnitId)
    | DoRemoveUnit(unit: UnitId)

  /** The orders are orders of the right sets, the stage is what expansion delivers,
      and no unit is taken away while it waits in the batch. */
  ghost predicate StepOk(t: Tab, step: Step) {
    match step
    case DoCommit(s, _, order) => StageOk(s) && Enumerates(order, AllUnits(t.recs, s))
    case DoTry(order, _, _) => Enumerates(order, t.ix.tReady)
    case DoRemoveUnit(u) => u !in t.ix.readys
    case _ => true
  }

  function Apply(t: Tab, db: Db, step: Step): Outcome<Tab>
    requires AllSound(t.recs)
  {
    match step
    case DoCommit(s, env, order) =>
      var c :- Commit(t, s, env, order);
      Ok(if c.Refused? then t else c.tab)
    case DoTry(order, act, us) =>
      var r :- TryTrigger(t, db, order, act, us);
      Ok(r.0)
    case DoFinish(u, result) =>
      var r :- FinishTrigger(t, db, u, result);
      Ok(r.0)
    case DoRemove(u, k1, k2, result, us) => RemoveSuspends(t, db, u, k1, k2, result, us)
    case DoResume(u) => ResumeUnit(t, u)
    case DoRemoveUnit(u) => Ok(RemoveUnit(t, u))
  }

  lemma ApplyInv(t: Tab, db: Db, step: Step)
    requires TabInv(t) && AllSound(t.recs) && StepOk(t, step)
    ensures Apply(t, db, step).Ok? ==> TabInv(Apply(t, db, step).value) && AllSound(Apply(t, db, step).value.recs)
  {
    match step {
      case DoCommit(s, env, order) => C.CommitInv(t, s, env, order);
      case DoTry(order, act, us) =>
        if Next(t, order).Some? && TryTrigger(t, db, order, act, us).Ok? {
          TrySomething(t, db, order, act, us);
        } else if Next(t, order).None? {
          TryNothing(t, db, order, act, us);
        }
      case DoFinish(u, result) => FinishTriggerInv(t, db, u, result);
      case DoRemove(u, k1, k2, result, us) => RemoveSuspendsInv(t, db, u, k1, k2, result, us);
      case DoResume(u) => ResumeUnitInv(t, u);
      case DoRemoveUnit(u) => RemoveUnitInv(t, u);
    }
    if Apply(t, db, step).Ok? {
      CoreSound(Apply(t, db, step).value, {});
    }
  }

  /** The tables a run goes through, without aborting. */
  ghost predicate IsRun(db: Db, ts: seq<Tab>, steps: seq<Step>) {
    |ts| == |steps| + 1 && forall i, k :: 0 <= i < |steps| && k == i + 1 ==> Takes(ts[i], db, steps[i], ts[k])
  }

  /** One step, without aborting. */
  ghost predicate Takes(t: Tab, db: Db, step: Step, t': Tab) {
    AllSound(t.recs) && StepOk(t, step) && Apply(t, db, step) == Ok(t')
  }

  /** In every state of every run: settled records, none of them empty, a right
      readiness index, and an id index that holds exactly the live jobs. */
  lemma {:induction false} RunKeepsInvariant(db: Db, ts: seq<Tab>, steps: seq<Step>, i: nat)
    requires IsRun(db, ts, steps) && TabInv(ts[0]) && i < |ts|
    ensures TabInv(ts[i])
  {
    if i > 0 {
      RunKeepsInvariant(db, ts, steps, i - 1);
      assert Takes(ts[i - 1], db, steps[i - 1], ts[i]);
      ApplyInv(ts[i - 1], db, steps[i - 1]);
    }
  }

  lemma NewTabInv()
    ensures TabInv(NEW_TAB)
  {
    assert ReadyUnits(map[]) == {};
  }

  // ----- who holds a job -----

  predicate SameJob(a: Job, b: Job) {
    a.id == b.id && a.kind == b.kind && a.ignoreOrder == b.ignoreOrder
  }

  predicate SuspendsLike(r: R.Rec, j: Job) {
    j.kind in r.suspends && SameJob(r.suspends[j.kind], j)
  }

  predicate TriggersLike(r: R.Rec, j: Job) {
    r.trigger.Some? && SameJob(r.trigger.value, j)
  }

  /** The unit still has the job, suspended or triggered. */
  predicate HasJob(recs: Recs, u: UnitId, j: Job) {
    u in recs && (SuspendsLike(recs[u], j) || TriggersLike(recs[u], j))
  }

  /** The job has been handed over and has not ended. */
  predicate RunsJob(recs: Recs, u: UnitId, j: Job) {
    u in recs && TriggersLike(recs[u], j)
  }

  /** What a step other than a commit makes of a unit's jobs. */
  predicate JobsShrink(r: R.Rec, r': R.Rec) {
    && r'.suspends.Keys <= r.suspends.Keys
    && (forall k :: k in r'.suspends ==> r'.suspends[k] == r.suspends[k])
  }

  /** No job comes in, and a job becomes the trigger only by being tried. */
  predicate Quiet(recs: Recs, recs': Recs) {
    recs'.Keys <= recs.Keys &&
    forall u :: u in recs' ==>
      JobsShrink(recs[u], recs'[u]) &&
      (recs'[u].trigger.Some? ==> recs[u].trigger.Some? && SameJob(recs[u].trigger.value, recs'[u].trigger.value))
  }

  lemma RewrittenQuiet(recs: Recs, recs': Recs, u: UnitId, r': R.Rec)
    requires u in recs && Rewritten(recs, recs', u, r') && JobsShrink(recs[u], r')
    requires r'.trigger.Some? ==> recs[u].trigger.Some? && SameJob(recs[u].trigger.value, r'.trigger.value)
    ensures Quiet(recs, recs')
  {
  }

  lemma FinishedShrinks(r: R.Rec, result: JobResult)
    requires r.trigger.Some? && CanFinish(r.trigger.value)
    ensures
      var r' := V.FinishedRec(r, result);
      JobsShrink(r, r') && (r'.trigger.Some? ==> SameJob(r.trigger.value, r'.trigger.value))
  {
  }

  lemma QuietFinish(t: Tab, db: Db, u: UnitId, result: JobResult)
    requires TabInv(t) && FinishTrigger(t, db, u, result).Ok?
    ensures Quiet(t.recs, FinishTrigger(t, db, u, result).value.0.recs)
  {
    FinishTriggerInv(t, db, u, result);
    FinishedShrinks(t.recs[u], result);
    RewrittenQuiet(t.recs, FinishTrigger(t, db, u, result).value.0.recs, u, V.FinishedRec(t.recs[u], result));
  }

  lemma QuietRemove(t: Tab, db: Db, u: UnitId, k1: JobKind, k2: Option<JobKind>, result: JobResult, us: ActiveState)
    requires TabInv(t) && RemoveSuspends(t, db, u, k1, k2, result, us).Ok?
    ensures Quiet(t.recs, RemoveSuspends(t, db, u, k1, k2, result, us).value.recs)
  {
    RemoveSuspendsInv(t, db, u, k1, k2, result, us);
    if u in t.recs {
      var r' := R.RemoveEntry(t.recs[u], k1, k2, result, us).value;
      V.RemoveEntrySettles(t.recs[u], k1, k2, result, us);
      RewrittenQuiet(t.recs, RemoveSuspends(t, db, u, k1, k2, result, us).value.recs, u, r');
    }
  }

  lemma QuietResume(t: Tab, u: UnitId)
    requires TabInv(t) && ResumeUnit(t, u).Ok?
    ensures Quiet(t.recs, ResumeUnit(t, u).value.recs)
  {
    ResumeUnitInv(t, u);
    ResumedQuiet(t.recs, ResumeUnit(t, u).value.recs);
  }

  lemma ResumedQuiet(recs: Recs, recs': Recs)
    requires AllResumed(recs, recs')
    ensures Quiet(recs, recs')
  {
  }

  lemma QuietSteps(t: Tab, db: Db, step: Step)
    requires TabInv(t) && AllSound(t.recs) && !step.DoCommit? && !step.DoTry? && StepOk(t, step)
    requires Apply(t, db, step).Ok?
    ensures Quiet(t.recs, Apply(t, db, step).value.recs)
  {
    match step {
      case DoFinish(u, result) => QuietFinish(t, db, u, result);
      case DoRemove(u, k1, k2, result, us) => QuietRemove(t, db, u, k1, k2, result, us);
      case DoResume(u) => QuietResume(t, u);
      case DoRemoveUnit(u) => QuietRemoveUnit(t, u);
    }
  }

  lemma QuietRemoveUnit(t: Tab, u: UnitId)
    ensures Quiet(t.recs, RemoveUnit(t, u).recs)
  {
  }

  lemma QuietHasJob(recs: Recs, recs': Recs, u: UnitId, j: Job)
    requires Quiet(recs, recs')
    ensures HasJob(recs', u, j) ==> HasJob(recs, u, j)
    ensures RunsJob(recs', u, j) ==> RunsJob(recs, u, j)
  {
  }

  /** Handing a job over brings no job in, and only the next job of the unit starts. */
  lemma HandedHasJob(r: R.Rec, r': R.Rec, out: RunOutcome, merged: Option<Job>, j: Job)
    requires V.Settled(r) && R.QueueSound(r) && r.ready && Handed(r, r', out, merged)
    ensures R.NextJob(r).Ok?
    ensures SuspendsLike(r', j) || TriggersLike(r', j) ==> SuspendsLike(r, j) || TriggersLike(r, j)
    ensures TriggersLike(r', j) ==> SameJob(R.NextJob(r).value, j)
  {
    ReadyHasNext(r);
  }

  /** A non-commit step brings no job in; a job starts only when its unit is tried and
      no related unit blocks it. */
  lemma StepJobs(t: Tab, db: Db, step: Step, u: UnitId, j: Job)
    requires TabInv(t) && AllSound(t.recs) && !step.DoCommit? && StepOk(t, step) && Apply(t, db, step).Ok?
    ensures
      var t' := Apply(t, db, step).value;
      && (HasJob(t'.recs, u, j) ==> HasJob(t.recs, u, j))
      && (RunsJob(t'.recs, u, j) && !RunsJob(t.recs, u, j) ==>
            u in t.recs && R.NextJob(t.recs[u]).Ok? && SameJob(R.NextJob(t.recs[u]).value, j) &&
            MayGo(t.recs, db, u, R.NextJob(t.recs[u]).value))
  {
    if step.DoTry? {
      TryJobs(t, db, step.order, step.act, step.us, u, j);
    } else {
      QuietSteps(t, db, step);
      QuietHasJob(t.recs, Apply(t, db, step).value.recs, u, j);
    }
  }

  lemma TryJobs(t: Tab, db: Db, order: seq<UnitId>, act: Option<ActionError>, us: ActiveState, u: UnitId, j: Job)
    requires TabInv(t) && AllSound(t.recs) && Enumerates(order, t.ix.tReady) && TryTrigger(t, db, order, act, us).Ok?
    ensures
      var t' := TryTrigger(t, db, order, act, us).value.0;
      && (HasJob(t'.recs, u, j) ==> HasJob(t.recs, u, j))
      && (RunsJob(t'.recs, u, j) && !RunsJob(t.recs, u, j) ==>
            u in t.recs && R.NextJob(t.recs[u]).Ok? && SameJob(R.NextJob(t.recs[u]).value, j) &&
            MayGo(t.recs, db, u, R.NextJob(t.recs[u]).value))
  {
    if Next(t, order).None? {
      TryNothing(t, db, order, act, us);
    } else {
      TrySomething(t, db, order, act, us);
      TryTriggerAborts(t, db, order, act, us);
      var (t', tried) := TryTrigger(t, db, order, act, us).value;
      var v := Next(t, order).value.0;
      if tried.Triggered? && v == u {
        HandedHasJob(t.recs[u], t'.recs[u], tried.out, tried.merged, j);
      } else {
        PutOther(t.recs, t'.recs, v, u, j);
      }
    }
  }

  lemma PutOther(recs: Recs, recs': Recs, v: UnitId, u: UnitId, j: Job)
    requires v in recs && v in recs' && recs' == recs[v := recs'[v]]
    requires u != v || (recs'[v].suspends == recs[v].suspends && recs'[v].trigger == recs[v].trigger)
    ensures HasJob(recs', u, j) <==> HasJob(recs, u, j)
    ensures RunsJob(recs', u, j) <==> RunsJob(recs, u, j)
  {
  }

  // ----- order safety -----

  /** `u2`'s job `j2` has to wait for `u1`'s job `j1`. */
  predicate MustWait(db: Db, u1: UnitId, j1: Job, u2: UnitId, j2: Job) {
    !Exempt(j2) &&
    ((u1 in Gets(db, u2, AtomAfter) && IsOrderWith(j2, j1, After) > 0) ||
     (u1 in Gets(db, u2, AtomBefore) && IsOrderWith(j2, j1, Before) > 0))
  }

  lemma HeldBlocks(recs: Recs, db: Db, u1: UnitId, j1: Job, u2: UnitId, j2: Job)
    requires HasJob(recs, u1, j1) && MustWait(db, u1, j1, u2, j2)
    ensures !MayGo(recs, db, u2, j2)
  {
    var r := recs[u1];
    if SuspendsLike(r, j1) {
      assert IsOrderWith(j2, r.suspends[j1.kind], After) == IsOrderWith(j2, j1, After);
      assert IsOrderWith(j2, r.suspends[j1.kind], Before) == IsOrderWith(j2, j1, Before);
    } else {
      assert IsOrderWith(j2, r.trigger.value, After) == IsOrderWith(j2, j1, After);
      assert IsOrderWith(j2, r.trigger.value, Before) == IsOrderWith(j2, j1, Before);
    }
  }

  lemma OrderStep(t: Tab, db: Db, step: Step, t': Tab, u1: UnitId, j1: Job, u2: UnitId, j2: Job)
    requires TabInv(t) && Takes(t, db, step, t') && !step.DoCommit?
    requires MustWait(db, u1, j1, u2, j2) && (HasJob(t.recs, u1, j1) ==> !RunsJob(t.recs, u2, j2))
    ensures HasJob(t'.recs, u1, j1) ==> HasJob(t.recs, u1, j1) && !RunsJob(t'.recs, u2, j2)
  {
    StepJobs(t, db, step, u1, j1);
    StepJobs(t, db, step, u2, j2);
    if HasJob(t.recs, u1, j1) {
      NotHanded(t.recs, db, u1, j1, u2, j2);
    }
  }

  /** Order safety over runs. Between commits, as long as a unit still has a job that
      must go first, suspended or running, the job that has to wait for it is not
      handed over. */
  lemma {:induction false} OrderSafety(db: Db, ts: seq<Tab>, steps: seq<Step>, u1: UnitId, j1: Job, u2: UnitId, j2: Job, i: nat)
    requires IsRun(db, ts, steps) && TabInv(ts[0]) && i < |ts|
    requires forall n :: 0 <= n < |steps| ==> !steps[n].DoCommit?
    requires MustWait(db, u1, j1, u2, j2) && !RunsJob(ts[0].recs, u2, j2)
    ensures HasJob(ts[i].recs, u1, j1) ==> !RunsJob(ts[i].recs, u2, j2)
    ensures HasJob(ts[i].recs, u1, j1) ==> HasJob(ts[0].recs, u1, j1)
  {
    if i > 0 {
      OrderSafety(db, ts, steps, u1, j1, u2, j2, i - 1);
      RunKeepsInvariant(db, ts, steps, i - 1);
      assert Takes(ts[i - 1], db, steps[i - 1], ts[i]);
      OrderStep(ts[i - 1], db, steps[i - 1], ts[i], u1, j1, u2, j2);
    }
  }

  lemma NotHanded(recs: Recs, db: Db, u1: UnitId, j1: Job, u2: UnitId, j2: Job)
    requires AllSound(recs) && HasJob(recs, u1, j1) && MustWait(db, u1, j1, u2, j2)
    ensures !(u2 in recs && R.NextJob(recs[u2]).Ok? && SameJob(R.NextJob(recs[u2]).value, j2) &&
              MayGo(recs, db, u2, R.NextJob(recs[u2]).value))
  {
    if u2 in recs && R.NextJob(recs[u2]).Ok? && SameJob(R.NextJob(recs[u2]).value, j2) {
      HeldBlocks(recs, db, u1, j1, u2, R.NextJob(recs[u2]).value);
    }
  }

  /** What has to wait for what, in the terms of a configuration file: with `u2` after
      `u1`, a job of `u2` that does not stop it waits for every job of `u1`, and a stop
      or restart of `u2` is waited for by `u1`. */
  lemma AfterMeans(db: Db, u1: UnitId, j1: Job, u2: UnitId, j2: Job)
    requires u1 in Gets(db, u2, AtomAfter) && u2 in Gets(db, u1, AtomBefore)
    requires !Exempt(j1) && !Exempt(j2)
    ensures !IsStopping(j2.kind) ==> MustWait(db, u1, j1, u2, j2)
    ensures IsStopping(j2.kind) ==> MustWait(db, u2, j2, u1, j1)
  {
    OneSideWaits(j1.kind, j2.kind);
  }
}
