/** The readiness index refines the scan for ready units, and exactly when it stops to: a
    unit that stops being ready while it sits in the batch is left there. */
module JobTableBatch {
  import opened Outcomes
  import opened UnitBase
  import opened JobEntry
  import opened JobTableState
  import opened JobTableIndex
  import opened JobTableInvariant
  import opened JobTableSteps
  import opened JobTableCommit
  import opened JobCommitBatch
  import opened JobTableRuns
  import C = JobTableCommitIds
  import R = JobUnitRecord
  import V = JobUnitInvariant

  /** With the batch in order, a unit is ready exactly when the index has it, in one of its
      two parts and never in both; and the up-ready flag marks one of them. */
  lemma IndexRefinesScan(t: Tab, u: UnitId)
    requires TabInv(t) && BatchOk(t)
    ensures u in ReadyUnits(t.recs) <==> u in t.ix.tReady || u in t.ix.readys
    ensures !(u in t.ix.tReady && u in t.ix.readys) && (u in t.ix.up <==> u in t.ix.tReady)
  {
  }

  /** Every unit of the batch but perhaps `u` is ready. */
  predicate BatchBut(t: Tab, u: UnitId) {
    forall v :: v in t.ix.readys && v != u ==> v in ReadyUnits(t.recs)
  }

  /** A paused unit that is ready once it is resumed. */
  predicate Wakes(recs: Recs, v: UnitId) {
    v in recs && recs[v].pause && R.CalcNatural(recs[v]).Ok? && R.CalcNatural(recs[v]).value.Some?
  }

  /** Resuming puts the batch back if it makes the unit ready, and leaves the index alone
      otherwise. */
  lemma ResumeBatch(t: Tab, x: set<UnitId>, u: UnitId, v: UnitId)
    requires Core(t, x) && BatchBut(t, u) && ResumeUnit(t, v).Ok?
    ensures
      var t' := ResumeUnit(t, v).value;
      BatchBut(t', u) && (BatchOk(t') <==> BatchOk(t) || Wakes(t.recs, v))
    ensures Wakes(t.recs, v) ==> ResumeUnit(t, v).value.ix.readys == []
  {
    if v in t.recs && t.recs[v].pause {
      V.ResumeEntrySettles(t.recs[v]);
      var r := R.ResumeEntry(t.recs[v]).value;
      assert r.ready <==> Wakes(t.recs, v);
      ResumedPut(t, u, v, r);
    }
  }

  /** A unit that was not ready gets its record put: if it is ready then, the batch goes back. */
  lemma ResumedPut(t: Tab, u: UnitId, v: UnitId, r: R.Rec)
    requires IndexOk(t.ix, ReadyUnits(t.recs)) && BatchBut(t, u) && v in t.recs && !t.recs[v].ready
    ensures BatchBut(PutRec(t, v, r), u) && (BatchOk(PutRec(t, v, r)) <==> BatchOk(t) || r.ready)
    ensures r.ready ==> PutRec(t, v, r).ix.readys == []
  {
    var ready := ReadyUnits(t.recs[v := r]);
    assert v !in ReadyUnits(t.recs) && v !in t.ix.tReady;
    assert ready == if r.ready then ReadyUnits(t.recs) + {v} else ReadyUnits(t.recs);
    if r.ready {
      BackfillMeaning(t.ix, ready);
    }
  }

  lemma {:induction false} ResumeAllBatch(t: Tab, x: set<UnitId>, u: UnitId, us: seq<UnitId>)
    requires Core(t, x) && BatchBut(t, u) && ResumeAll(t, us).Ok?
    ensures BatchOk(ResumeAll(t, us).value) <==> BatchOk(t) || exists v :: v in us && Wakes(t.recs, v)
    decreases |us|
  {
    if us != [] {
      ResumeBatch(t, x, u, us[0]);
      ResumeUnitCore(t, x, us[0]);
      var t1 := ResumeUnit(t, us[0]).value;
      ResumeAllBatch(t1, x, u, us[1..]);
      assert us == [us[0]] + us[1..];
      forall v | v != us[0] ensures Wakes(t1.recs, v) <==> Wakes(t.recs, v) {
        if v in t.recs {
          ResumeUnitOnly(t, us[0], v);
        }
      }
      assert !Wakes(t1.recs, us[0]);
    }
  }

  /** Some unit related to `u` wakes up. */
  predicate WakesRelated(recs: Recs, db: Db, u: UnitId) {
    exists v :: Related(db, u, v) && v in recs && Wakes(recs, v)
  }

  /** A unit's record is rewritten and its related units resumed: the batch stays in order
      exactly when the unit was not in it, or is still ready, or the waking of a related
      unit puts the batch back. */
  lemma RewriteBatchIff(t: Tab, db: Db, u: UnitId, r': R.Rec)
    requires Core(t, {}) && BatchOk(t) && u in t.recs && V.Settled(r') && Rewrite(t, db, u, r').Ok?
    ensures BatchOk(Rewrite(t, db, u, r').value) <==>
      !(u in t.ix.readys && !r'.ready) || WakesRelated(t.recs[u := r'], db, u)
  {
    PutBatch(t, u, r');
    PutRecCore(t, {}, u, r');
    assert {} + {u} == {u};
    var t1 := PutRec(t, u, r');
    ResumeRelatedBatch(t1, db, u);
    CollectBatch(ResumeRelated(t1, db, u).value, u);
  }

  lemma ResumeRelatedBatch(t: Tab, db: Db, u: UnitId)
    requires Core(t, {u}) && BatchBut(t, u) && ResumeRelated(t, db, u).Ok?
    ensures BatchOk(ResumeRelated(t, db, u).value) <==> BatchOk(t) || WakesRelated(t.recs, db, u)
    ensures Core(ResumeRelated(t, db, u).value, {u})
  {
    var a, b := Gets(db, u, AtomAfter), Gets(db, u, AtomBefore);
    ResumeAllConcat(t, a, b);
    ResumeAllBatch(t, {u}, u, a + b);
    assert forall v :: Related(db, u, v) <==> v in a + b;
    ResumeRelatedCore(t, {u}, db, u);
  }

  lemma PutBatch(t: Tab, u: UnitId, r': R.Rec)
    requires Core(t, {}) && BatchOk(t) && u in t.recs && V.Settled(r')
    ensures BatchBut(PutRec(t, u, r'), u)
    ensures BatchOk(PutRec(t, u, r')) <==> !(u in t.ix.readys && !r'.ready)
  {
    var ready, ready' := ReadyUnits(t.recs), ReadyUnits(t.recs[u := r']);
    assert ready - {u} == ready' - {u};
    BecomesPending(t.ix, ready, ready', {}, u);
    BatchReadyIff(t.ix, u, ready');
    BackfillMeaning(t.ix, ready');
  }

  lemma CollectBatch(t: Tab, u: UnitId)
    requires Core(t, {u})
    ensures BatchOk(Collect(t, u)) <==> BatchOk(t)
  {
    if u in t.recs && IsEmptyRec(t.recs[u]) {
      assert V.Settled(t.recs[u]) && !t.recs[u].ready;
    }
    assert ReadyUnits(Collect(t, u).recs) == ReadyUnits(t.recs);
  }

  // ----- the steps -----

  /** Does the step leave its unit stranded in the batch, no longer ready, with nothing to
      put the batch back? */
  predicate Strands(t: Tab, db: Db, u: UnitId, r': R.Rec) {
    u in t.ix.readys && !r'.ready && !WakesRelated(t.recs[u := r'], db, u)
  }

  lemma FinishBatchIff(t: Tab, db: Db, u: UnitId, result: JobResult)
    requires TabInv(t) && BatchOk(t) && FinishTrigger(t, db, u, result).Ok?
    ensures u in t.recs && t.recs[u].trigger.Some? && CanFinish(t.recs[u].trigger.value)
    ensures BatchOk(FinishTrigger(t, db, u, result).value.0) <==> !Strands(t, db, u, V.FinishedRec(t.recs[u], result))
  {
    FinishTriggerInv(t, db, u, result);
    V.FinishEntrySettles(t.recs[u], result);
    RewriteBatchIff(t, db, u, V.FinishedRec(t.recs[u], result));
  }

  lemma RemoveBatchIff(t: Tab, db: Db, u: UnitId, k1: JobKind, k2: Option<JobKind>, result: JobResult, us: ActiveState)
    requires TabInv(t) && BatchOk(t) && RemoveSuspends(t, db, u, k1, k2, result, us).Ok?
    ensures u in t.recs ==> R.RemoveEntry(t.recs[u], k1, k2, result, us).Ok?
    ensures BatchOk(RemoveSuspends(t, db, u, k1, k2, result, us).value) <==>
      !(u in t.recs && Strands(t, db, u, R.RemoveEntry(t.recs[u], k1, k2, result, us).value))
  {
    RemoveSuspendsInv(t, db, u, k1, k2, result, us);
    if u in t.recs {
      V.RemoveEntrySettles(t.recs[u], k1, k2, result, us);
      RewriteBatchIff(t, db, u, R.RemoveEntry(t.recs[u], k1, k2, result, us).value);
    }
  }

  lemma TryBatch(t: Tab, db: Db, order: seq<UnitId>, act: Option<ActionError>, us: ActiveState)
    requires TabInv(t) && AllSound(t.recs) && BatchOk(t) && Enumerates(order, t.ix.tReady)
    requires TryTrigger(t, db, order, act, us).Ok?
    ensures BatchOk(TryTrigger(t, db, order, act, us).value.0)
  {
    FillOk(t.ix, ReadyUnits(t.recs), order);
    if Next(t, order).None? {
      TryNothing(t, db, order, act, us);
    } else {
      PopOk(Fill(t.ix, order), ReadyUnits(t.recs));
      TrySomething(t, db, order, act, us);
      TriedOnly(t, db, order, act, us);
    }
  }

  /** Trying changes only the record of the unit taken out of the batch. */
  lemma TriedOnly(t: Tab, db: Db, order: seq<UnitId>, act: Option<ActionError>, us: ActiveState)
    requires TabInv(t) && AllSound(t.recs) && Enumerates(order, t.ix.tReady) && Next(t, order).Some?
    requires TryTrigger(t, db, order, act, us).Ok?
    ensures
      var (u, t1) := Next(t, order).value;
      var t' := TryTrigger(t, db, order, act, us).value.0;
      t'.ix == t1.ix && u !in t1.ix.readys && forall v :: v in t.recs && v != u ==> v in t'.recs && t'.recs[v] == t.recs[v]
  {
    NextPopped(t, order);
    TryEntryInv(Next(t, order).value.1, db, Next(t, order).value.0, act, us);
  }

  // ----- what becomes of a stranded unit -----

  /** A unit found in the batch when it is no longer ready aborts the process. */
  lemma StrandedAborts(t: Tab, db: Db, order: seq<UnitId>, act: Option<ActionError>, us: ActiveState)
    requires TabInv(t) && AllSound(t.recs) && Enumerates(order, t.ix.tReady)
    requires t.ix.readys != [] && t.ix.readys[|t.ix.readys| - 1] !in ReadyUnits(t.recs)
    ensures TryTrigger(t, db, order, act, us).Panic?
  {
    TryTriggerAborts(t, db, order, act, us);
  }

  lemma LastJobGone(r: R.Rec, k1: JobKind, k2: Option<JobKind>, result: JobResult, us: ActiveState)
    requires V.Settled(r) && r.trigger.None? && V.Remaining(r.suspends, k1, k2) == map[]
    ensures R.RemoveEntry(r, k1, k2, result, us).Ok?
    ensures IsEmptyRec(R.RemoveEntry(r, k1, k2, result, us).value) && !R.RemoveEntry(r, k1, k2, result, us).value.ready
  {
    V.RemoveEntrySettles(r, k1, k2, result, us);
    assert R.QueueOf(map[]) == [];
  }

  lemma NobodyWakes(recs: Recs, db: Db, u: UnitId, r': R.Rec)
    requires forall v :: Related(db, u, v) && v in recs ==> v != u && !recs[v].pause
    requires !Related(db, u, u)
    ensures !WakesRelated(recs[u := r'], db, u)
  {
  }

  /** So giving up the last jobs of a unit that waits its turn in the batch is fatal, unless a
      related unit wakes up by it: the unit's record goes, its place in the batch stays. */
  lemma GivenUpInBatch(t: Tab, db: Db, u: UnitId, k1: JobKind, k2: Option<JobKind>, result: JobResult, us: ActiveState)
    requires TabInv(t) && BatchOk(t) && RemoveSuspends(t, db, u, k1, k2, result, us).Ok?
    requires u in t.ix.readys && u in t.recs && t.recs[u].trigger.None? && V.Remaining(t.recs[u].suspends, k1, k2) == map[]
    requires !Related(db, u, u) && forall v :: Related(db, u, v) && v in t.recs ==> v != u && !t.recs[v].pause
    ensures !BatchOk(RemoveSuspends(t, db, u, k1, k2, result, us).value)
  {
    LastJobGone(t.recs[u], k1, k2, result, us);
    NobodyWakes(t.recs, db, u, R.RemoveEntry(t.recs[u], k1, k2, result, us).value);
    RemoveBatchIff(t, db, u, k1, k2, result, us);
  }

  // ----- over runs -----

  /** Steps that leave no unit stranded. */
  ghost predicate KeepsBatch(t: Tab, db: Db, step: Step)
  {
    match step
    case DoTry(_, _, _) => true
    case DoResume(_) => true
    case DoCommit(s, env, _) => t.ids.Keys !! s.ids.Keys ==> CommitKeeps(t, s, env)
    case DoRemoveUnit(_) => true
    case DoFinish(u, result) =>
      u in t.recs && t.recs[u].trigger.Some? && CanFinish(t.recs[u].trigger.value) ==>
        !Strands(t, db, u, V.FinishedRec(t.recs[u], result))
    case DoRemove(u, k1, k2, result, us) =>
      u in t.recs && R.RemoveEntry(t.recs[u], k1, k2, result, us).Ok? ==>
        !Strands(t, db, u, R.RemoveEntry(t.recs[u], k1, k2, result, us).value)
  }

  /** A step strands a unit exactly when it is one of those. */
  lemma StepBatchIff(t: Tab, db: Db, step: Step, t': Tab)
    requires TabInv(t) && BatchOk(t) && Takes(t, db, step, t')
    ensures BatchOk(t') <==> KeepsBatch(t, db, step)
  {
    match step {
      case DoTry(order, act, us) => TryBatch(t, db, order, act, us);
      case DoResume(u) => ResumeBatch(t, {}, u, u);
      case DoCommit(s, env, order) => CommitStep(t, s, env, order);
      case DoRemoveUnit(u) => GoneBatch(t, u);
      case DoFinish(u, result) => FinishStep(t, db, step, t');
      case DoRemove(u, k1, k2, result, us) => RemoveStep(t, db, step, t');
    }
  }

  lemma FinishStep(t: Tab, db: Db, step: Step, t': Tab)
    requires TabInv(t) && BatchOk(t) && Takes(t, db, step, t') && step.DoFinish?
    ensures BatchOk(t') <==> KeepsBatch(t, db, step)
  {
    FinishBatchIff(t, db, step.unit, step.result);
  }

  lemma RemoveStep(t: Tab, db: Db, step: Step, t': Tab)
    requires TabInv(t) && BatchOk(t) && Takes(t, db, step, t') && step.DoRemove?
    ensures BatchOk(t') <==> KeepsBatch(t, db, step)
  {
    RemoveBatchIff(t, db, step.unit, step.k1, step.k2, step.result, step.us);
  }

  lemma CommitStep(t: Tab, s: Stage, env: CommitEnv, order: seq<UnitId>)
    requires TabInv(t) && BatchOk(t) && StageOk(s) && Enumerates(order, AllUnits(t.recs, s)) && Commit(t, s, env, order).Ok?
    ensures Commit(t, s, env, order).value.Committed? <==> t.ids.Keys !! s.ids.Keys
    ensures Commit(t, s, env, order).value.Committed? ==>
      (BatchOk(Commit(t, s, env, order).value.tab) <==> CommitKeeps(t, s, env))
  {
    C.CommitInv(t, s, env, order);
    if Commit(t, s, env, order).value.Committed? {
      CommitBatchIff(t, s, env, order);
    }
  }

  lemma GoneBatch(t: Tab, u: UnitId)
    requires BatchOk(t) && u !in t.ix.readys
    ensures BatchOk(RemoveUnit(t, u))
  {
  }

  /** Over every run: as long as no step has stranded a unit the index refines the scan, and
      the first that does leaves a unit in the batch that is not ready. */
  lemma {:induction false} RunRefinesScan(db: Db, ts: seq<Tab>, steps: seq<Step>, i: nat, u: UnitId)
    requires IsRun(db, ts, steps) && TabInv(ts[0]) && BatchOk(ts[0]) && i < |ts|
    requires forall n :: 0 <= n < i - 1 ==> KeepsBatch(ts[n], db, steps[n])
    ensures TabInv(ts[i]) && (BatchOk(ts[i]) <==> i == 0 || KeepsBatch(ts[i - 1], db, steps[i - 1]))
    ensures BatchOk(ts[i]) ==> (u in ReadyUnits(ts[i].recs) <==> u in ts[i].ix.tReady || u in ts[i].ix.readys)
  {
    RunKeepsInvariant(db, ts, steps, i);
    if i > 0 {
      RunRefinesScan(db, ts, steps, i - 1, u);
      assert Takes(ts[i - 1], db, steps[i - 1], ts[i]);
      StepBatchIff(ts[i - 1], db, steps[i - 1], ts[i]);
    }
    if BatchOk(ts[i]) {
      IndexRefinesScan(ts[i], u);
    }
  }
}
