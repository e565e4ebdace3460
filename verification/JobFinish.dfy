/** What the job manager does when a job ends: the trigger or a suspended job leaves, and
    on a failure the jobs that depend on it
    (process1/src/manager/unit/job/job_manager.rs, job_transaction.rs). */
module JobFinish {
  import opened Outcomes
  import opened UnitBase
  import opened JobEntry
  import opened JobExpansion
  import opened JobTableState
  import opened JobTableInvariant
  import opened JobTableSteps
  import opened JobTableRuns
  import opened JobTableProgress
  import opened JobWork
  import R = JobUnitRecord
  import V = JobUnitInvariant

  /** What is known of a job when it was looked up. */
  datatype JobInfo = JobInfo(id: nat, unit: UnitId, kind: JobKind, runKind: JobKind)

  /** A unit's report of its new state. */
  datatype Note = Note(unit: UnitId, ns: ActiveState, reloadFailure: bool)

  // ----- the steps -----

  /** Along which dependency does the failure of a phase spread? */
  function FallbackAtom(runKind: JobKind): Option<Atom> {
    match runKind
    case Start | Verify => Some(PropagateStartFailure)
    case Stop => Some(PropagateStopFailure)
    case _ => None
  }

  function FallbackUnits(db: Db, u: UnitId, runKind: JobKind): seq<UnitId> {
    if FallbackAtom(runKind).Some? then Gets(db, u, FallbackAtom(runKind).value) else []
  }

  /** The pending starts and verifies of these units are given up. */
  function Fallback(t: Tab, db: Db, active: Active, us: seq<UnitId>): Outcome<Tab>
    decreases |us|
  {
    if us == [] then Ok(t)
    else
      var t1 :- RemoveSuspends(t, db, us[0], Start, Some(Verify), Dependency, StateOf(active, us[0]));
      Fallback(t1, db, active, us[1..])
  }

  function FallbackOn(t: Tab, db: Db, active: Active, u: UnitId, runKind: JobKind, result: JobResult): Outcome<Tab> {
    if result.Done? then Ok(t) else Fallback(t, db, active, FallbackUnits(db, u, runKind))
  }

  /** The table without the trigger; whether the trigger is to be triggered again instead;
      and the ids before the dependants were given up. */
  function DelTrigger(t: Tab, db: Db, active: Active, u: UnitId, runKind: JobKind, result: JobResult): Outcome<(Tab, bool, map<nat, JobRef>)> {
    var (t1, del) :- JobTableState.FinishTrigger(t, db, u, result);
    var t2 :- FallbackOn(t1, db, active, u, runKind, result);
    Ok((t2, del.None?, t1.ids))
  }

  function DelSuspends(t: Tab, db: Db, active: Active, info: JobInfo, result: JobResult): Outcome<Tab> {
    var t1 :- RemoveSuspends(t, db, info.unit, info.kind, None, result, StateOf(active, info.unit));
    FallbackOn(t1, db, active, info.unit, info.runKind, result)
  }

  predicate IsTrigger(t: Tab, id: nat) {
    id in t.ids && t.ids[id].unit in t.recs &&
    var r := t.recs[t.ids[id].unit];
    r.trigger.Some? && r.trigger.value.id == id
  }

  function RemoveJob(t: Tab, db: Db, active: Active, info: JobInfo, result: JobResult): Outcome<Tab> {
    if IsTrigger(t, info.id) then
      var d :- DelTrigger(t, db, active, info.unit, info.runKind, result);
      Ok(d.0)
    else DelSuspends(t, db, active, info, result)
  }

  /** A report reaches the trigger of the unit, if there is one: a paused unit is resumed
      and the report goes no further; otherwise it may finish the trigger. */
  function DoTryFinish(t: Tab, db: Db, active: Active, n: Note): Outcome<Tab> {
    if n.unit !in t.recs || t.recs[n.unit].trigger.None? then Ok(t)
    else if t.recs[n.unit].pause then ResumeUnit(t, n.unit)
    else
      var runKind := t.recs[n.unit].trigger.value.runKind;
      var v :- ProcessUnit(runKind, n.ns, n.reloadFailure);
      if v.0.None? then Ok(t)
      else
        var d :- DelTrigger(t, db, active, n.unit, runKind, v.0.value);
        Ok(d.0)
  }

  /** Does the report finish the unit's trigger? */
  predicate EndsTrigger(t: Tab, n: Note) {
    n.unit in t.recs && t.recs[n.unit].trigger.Some? && !t.recs[n.unit].pause &&
    var v := ProcessUnit(t.recs[n.unit].trigger.value.runKind, n.ns, n.reloadFailure);
    v.Ok? && v.value.0.Some?
  }

  // ----- one round of the manager's loop -----

  /** The answer of the world to one hand-over: the action's error, the unit's state, and
      a report that comes in while the unit is being triggered. */
  datatype Answer = Answer(act: Option<ActionError>, us: ActiveState, note: Option<Note>)

  /** After a hand-over: the report comes first, if there is one, then the answer. The answer
      is meant for the job that was triggered, but by then another may be found in its place. */
  function SettleTab(t: Tab, db: Db, active: Active, u: UnitId, out: RunOutcome, note: Option<Note>): Outcome<Tab>
    requires u in t.recs && t.recs[u].trigger.Some?
  {
    var j := t.recs[u].trigger.value;
    var t1 :- if note.Some? then DoTryFinish(t, db, active, note.value) else Ok(t);
    if out.Finished? then RemoveJob(t1, db, active, JobInfo(j.id, u, j.kind, j.runKind), out.result) else Ok(t1)
  }

  /** A unit that has been tried is settled if it was handed over; unless there was nothing to
      try there is to be another round. */
  function EndRound(t: Tab, db: Db, active: Active, tried: Tried, note: Option<Note>): Outcome<(Tab, bool)> {
    if tried.Triggered? && tried.unit in t.recs && t.recs[tried.unit].trigger.Some? then
      var t1 :- SettleTab(t, db, active, tried.unit, tried.out, note);
      Ok((t1, true))
    else Ok((t, !tried.Nothing?))
  }

  /** The table after one round, and whether there is to be another. */
  function RoundTab(t: Tab, db: Db, active: Active, order: seq<UnitId>, a: Answer): Outcome<(Tab, bool)>
    requires AllSound(t.recs)
  {
    var (t1, tried) :- TryTrigger(t, db, order, a.act, a.us);
    EndRound(t1, db, active, tried, a.note)
  }

  // ----- what any of them can reach -----

  /** A run of the table by tries, removals, resumptions and finishes of units that are not
      paused; without tries, unless `tries` allows them. */
  ghost predicate Quietly(db: Db, t: Tab, t': Tab, tries: bool, ts: seq<Tab>, steps: seq<Step>) {
    && IsRun(db, ts, steps) && ts[0] == t && ts[|ts| - 1] == t'
    && forall i :: 0 <= i < |steps| ==> Quiet1(ts[i], tries, steps[i])
  }

  predicate Quiet1(t: Tab, tries: bool, step: Step) {
    WakefulStep(t, step) && (step.DoTry? ==> tries)
  }

  /** `t'` is reached from `t` by such a run. */
  ghost predicate Leads(db: Db, t: Tab, t': Tab, tries: bool) {
    exists ts, steps :: Quietly(db, t, t', tries, ts, steps)
  }

  lemma LeadsSelf(db: Db, t: Tab, tries: bool)
    ensures Leads(db, t, t, tries)
  {
    assert Quietly(db, t, t, tries, [t], []);
  }

  lemma LeadsStep(db: Db, t: Tab, step: Step, t': Tab, tries: bool)
    requires Takes(t, db, step, t') && Quiet1(t, tries, step)
    ensures Leads(db, t, t', tries)
  {
    assert Quietly(db, t, t', tries, [t, t'], [step]);
  }

  lemma LeadsTrans(db: Db, t1: Tab, t2: Tab, t3: Tab, tries: bool)
    requires Leads(db, t1, t2, tries) && Leads(db, t2, t3, tries)
    ensures Leads(db, t1, t3, tries)
  {
    var ts1, steps1 :| Quietly(db, t1, t2, tries, ts1, steps1);
    var ts2, steps2 :| Quietly(db, t2, t3, tries, ts2, steps2);
    JoinRuns(db, ts1, steps1, ts2, steps2);
    var ts, steps := ts1 + ts2[1..], steps1 + steps2;
    forall i | 0 <= i < |steps| ensures Quiet1(ts[i], tries, steps[i]) {
      JoinAt(ts1, ts2, i);
      assert i < |steps1| ==> Quiet1(ts1[i], tries, steps1[i]);
      assert i >= |steps1| ==> Quiet1(ts2[i - |steps1|], tries, steps2[i - |steps1|]);
    }
    assert Quietly(db, t1, t3, tries, ts, steps);
  }

  lemma LeadsMore(db: Db, t: Tab, t': Tab)
    requires Leads(db, t, t', false)
    ensures Leads(db, t, t', true)
  {
    var ts, steps :| Quietly(db, t, t', false, ts, steps);
    assert forall i :: 0 <= i < |steps| ==> Quiet1(ts[i], false, steps[i]);
    assert Quietly(db, t, t', true, ts, steps);
  }

  lemma JoinRuns(db: Db, ts1: seq<Tab>, steps1: seq<Step>, ts2: seq<Tab>, steps2: seq<Step>)
    requires IsRun(db, ts1, steps1) && IsRun(db, ts2, steps2) && ts1[|ts1| - 1] == ts2[0]
    ensures IsRun(db, ts1 + ts2[1..], steps1 + steps2)
    ensures (ts1 + ts2[1..])[0] == ts1[0] && (ts1 + ts2[1..])[|ts1 + ts2[1..]| - 1] == ts2[|ts2| - 1]
  {
    var ts, steps := ts1 + ts2[1..], steps1 + steps2;
    forall i, k | 0 <= i < |steps| && k == i + 1 ensures Takes(ts[i], db, steps[i], ts[k]) {
      JoinAt(ts1, ts2, i);
      JoinAt(ts1, ts2, k);
      if i < |steps1| {
        RunStep(db, ts1, steps1, i, ts[i], steps[i], ts[k]);
      } else {
        RunStep(db, ts2, steps2, i - |steps1|, ts[i], steps[i], ts[k]);
      }
    }
  }

  lemma JoinAt(a: seq<Tab>, b: seq<Tab>, i: nat)
    requires a != [] && b != [] && a[|a| - 1] == b[0] && i < |a| + |b| - 1
    ensures (a + b[1..])[i] == if i < |a| then a[i] else b[i - |a| + 1]
    ensures i >= |a| - 1 ==> (a + b[1..])[i] == b[i - (|a| - 1)]
  {
  }

  lemma RunStep(db: Db, ts: seq<Tab>, steps: seq<Step>, i: nat, t: Tab, step: Step, t': Tab)
    requires IsRun(db, ts, steps) && i < |steps| && t == ts[i] && step == steps[i] && t' == ts[i + 1]
    ensures Takes(t, db, step, t')
  {
  }

  /** No id is added, and none changes its job. */
  predicate FewerIds(ids: map<nat, JobRef>, ids': map<nat, JobRef>) {
    forall id :: id in ids' ==> id in ids && ids'[id] == ids[id]
  }

  lemma StepFewer(t: Tab, db: Db, step: Step, t': Tab)
    requires TabInv(t) && Takes(t, db, step, t') && !step.DoCommit?
    ensures FewerIds(t.ids, t'.ids)
  {
    match step {
      case DoTry(order, act, us) => TryFewer(t, db, order, act, us);
      case DoFinish(u, result) => FinishTriggerInv(t, db, u, result);
      case DoRemove(u, k1, k2, result, us) => RemoveSuspendsInv(t, db, u, k1, k2, result, us);
      case DoResume(u) => ResumeUnitCore(t, {}, u);
      case DoRemoveUnit(u) =>
    }
  }

  lemma TryFewer(t: Tab, db: Db, order: seq<UnitId>, act: Option<ActionError>, us: ActiveState)
    requires AllSound(t.recs) && TryTrigger(t, db, order, act, us).Ok?
    ensures FewerIds(t.ids, TryTrigger(t, db, order, act, us).value.0.ids)
  {
  }

  lemma StepWork(t: Tab, db: Db, step: Step, t': Tab)
    requires TabInv(t) && Takes(t, db, step, t') && !step.DoCommit?
    ensures Work(t'.recs) <= Work(t.recs)
  {
    match step {
      case DoTry(order, act, us) => TryWork(t, db, order, act, us);
      case DoFinish(u, result) => FinishWork(t, db, u, result);
      case DoRemove(u, k1, k2, result, us) => RemoveWork(t, db, u, k1, k2, result, us);
      case DoResume(u) => ResumeWork(t, u);
      case DoRemoveUnit(u) => WorkShrinks(t.recs, t'.recs);
    }
  }

  /** Only a try pauses a unit. */
  predicate NoNewPause(recs: Recs, recs': Recs) {
    forall u :: u in recs' && recs'[u].pause ==> u in recs && recs[u].pause
  }

  lemma StepPause(t: Tab, db: Db, step: Step, t': Tab)
    requires TabInv(t) && Takes(t, db, step, t') && Quiet1(t, false, step)
    ensures NoNewPause(t.recs, t'.recs)
  {
    match step {
      case DoFinish(u, result) => FinishPause(t, db, u, result);
      case DoRemove(u, k1, k2, result, us) => RemovePause(t, db, u, k1, k2, result, us);
      case DoResume(u) => ResumeUnitCore(t, {}, u);
    }
  }

  lemma FinishPause(t: Tab, db: Db, u: UnitId, result: JobResult)
    requires TabInv(t) && JobTableState.FinishTrigger(t, db, u, result).Ok?
    ensures NoNewPause(t.recs, JobTableState.FinishTrigger(t, db, u, result).value.0.recs)
  {
    FinishTriggerInv(t, db, u, result);
    RewrittenPause(t.recs, JobTableState.FinishTrigger(t, db, u, result).value.0.recs, u, V.FinishedRec(t.recs[u], result));
  }

  lemma RemovePause(t: Tab, db: Db, u: UnitId, k1: JobKind, k2: Option<JobKind>, result: JobResult, us: ActiveState)
    requires TabInv(t) && RemoveSuspends(t, db, u, k1, k2, result, us).Ok?
    ensures NoNewPause(t.recs, RemoveSuspends(t, db, u, k1, k2, result, us).value.recs)
  {
    RemoveSuspendsInv(t, db, u, k1, k2, result, us);
    if u in t.recs {
      V.RemoveEntrySettles(t.recs[u], k1, k2, result, us);
      var r' := R.RemoveEntry(t.recs[u], k1, k2, result, us).value;
      RewrittenPause(t.recs, RemoveSuspends(t, db, u, k1, k2, result, us).value.recs, u, r');
    }
  }

  lemma RewrittenPause(recs: Recs, recs': Recs, u: UnitId, r': R.Rec)
    requires u in recs && Rewritten(recs, recs', u, r') && (r'.pause ==> recs[u].pause)
    ensures NoNewPause(recs, recs')
  {
    forall v | v in recs' && recs'[v].pause ensures v in recs && recs[v].pause {
      assert Resumed(if v == u then r' else recs[v], recs'[v]);
    }
  }

  // ----- only a try begins a batch -----

  lemma SyncNoBatch(ix: Index, u: UnitId, ready: set<UnitId>)
    requires ix.readys == []
    ensures ReadySync(ix, u, ready).readys == []
  {
    assert Backfill(ix, ready) == ix;
  }

  lemma ResumeNoBatch(t: Tab, u: UnitId)
    requires t.ix.readys == [] && ResumeUnit(t, u).Ok?
    ensures ResumeUnit(t, u).value.ix.readys == []
  {
    if u in t.recs && t.recs[u].pause {
      SyncNoBatch(t.ix, u, ReadyUnits(t.recs[u := R.ResumeEntry(t.recs[u]).value]));
    }
  }

  lemma {:induction false} ResumeAllNoBatch(t: Tab, us: seq<UnitId>)
    requires t.ix.readys == [] && ResumeAll(t, us).Ok?
    ensures ResumeAll(t, us).value.ix.readys == []
    decreases |us|
  {
    if us != [] {
      ResumeNoBatch(t, us[0]);
      ResumeAllNoBatch(ResumeUnit(t, us[0]).value, us[1..]);
    }
  }

  lemma RewriteNoBatch(t: Tab, db: Db, u: UnitId, r: R.Rec)
    requires t.ix.readys == [] && Rewrite(t, db, u, r).Ok?
    ensures Rewrite(t, db, u, r).value.ix.readys == []
  {
    SyncNoBatch(t.ix, u, ReadyUnits(t.recs[u := r]));
    var t1 := PutRec(t, u, r);
    ResumeAllNoBatch(t1, Gets(db, u, AtomAfter));
    ResumeAllNoBatch(ResumeAll(t1, Gets(db, u, AtomAfter)).value, Gets(db, u, AtomBefore));
  }

  lemma StepNoBatch(t: Tab, db: Db, step: Step, t': Tab)
    requires Takes(t, db, step, t') && Quiet1(t, false, step) && t.ix.readys == []
    ensures t'.ix.readys == []
  {
    match step {
      case DoFinish(u, result) => RewriteNoBatch(t, db, u, R.FinishEntry(t.recs[u], result).value.0);
      case DoRemove(u, k1, k2, result, us) =>
        if u in t.recs {
          RewriteNoBatch(t, db, u, R.RemoveEntry(t.recs[u], k1, k2, result, us).value);
        }
      case DoResume(u) => ResumeNoBatch(t, u);
    }
  }

  /** No more work, no more jobs, and without tries no more units paused and no batch begun. */
  ghost predicate Kept(t: Tab, t': Tab, tries: bool) {
    && Work(t'.recs) <= Work(t.recs) && FewerIds(t.ids, t'.ids)
    && (!tries ==> NoNewPause(t.recs, t'.recs) && (t.ix.readys == [] ==> t'.ix.readys == []))
  }

  lemma KeptTrans(t1: Tab, t2: Tab, t3: Tab, tries: bool)
    requires Kept(t1, t2, tries) && Kept(t2, t3, tries)
    ensures Kept(t1, t3, tries)
  {
  }

  /** No such step adds work or a job. */
  lemma {:induction false} LeadsKeeps(db: Db, t: Tab, t': Tab, tries: bool)
    requires TabInv(t) && Leads(db, t, t', tries)
    ensures TabInv(t') && Work(t'.recs) <= Work(t.recs) && FewerIds(t.ids, t'.ids)
    ensures !tries ==> NoNewPause(t.recs, t'.recs) && (t.ix.readys == [] ==> t'.ix.readys == [])
  {
    var ts, steps :| Quietly(db, t, t', tries, ts, steps);
    QuietlyKeeps(db, tries, ts, steps, |steps|);
  }

  lemma {:induction false} QuietlyKeeps(db: Db, tries: bool, ts: seq<Tab>, steps: seq<Step>, n: nat)
    requires IsRun(db, ts, steps) && TabInv(ts[0]) && n < |ts| && forall i :: 0 <= i < |steps| ==> Quiet1(ts[i], tries, steps[i])
    ensures TabInv(ts[n]) && Kept(ts[0], ts[n], tries)
  {
    if n > 0 {
      QuietlyKeeps(db, tries, ts, steps, n - 1);
      KeptNext(ts[0], db, tries, ts, steps, n - 1, ts[n - 1], ts[n]);
    }
  }

  lemma KeptNext(t0: Tab, db: Db, tries: bool, ts: seq<Tab>, steps: seq<Step>, i: nat, t: Tab, t': Tab)
    requires IsRun(db, ts, steps) && i < |steps| && t == ts[i] && t' == ts[i + 1] && Quiet1(t, tries, steps[i])
    requires TabInv(t) && Kept(t0, t, tries)
    ensures TabInv(t') && Kept(t0, t', tries)
  {
    var step := steps[i];
    RunStep(db, ts, steps, i, t, step, t');
    ApplyInv(t, db, step);
    StepKeeps(t, db, step, t', tries);
    KeptTrans(t0, t, t', tries);
  }

  lemma StepKeeps(t: Tab, db: Db, step: Step, t': Tab, tries: bool)
    requires TabInv(t) && Takes(t, db, step, t') && Quiet1(t, tries, step)
    ensures Kept(t, t', tries)
  {
    StepWork(t, db, step, t');
    StepFewer(t, db, step, t');
    if !tries {
      StepPause(t, db, step, t');
      if t.ix.readys == [] {
        StepNoBatch(t, db, step, t');
      }
    }
  }

  /** No wakeup is lost on the way. */
  lemma LeadsWakes(db: Db, t: Tab, t': Tab, tries: bool)
    requires TabInv(t) && Wakeful(t, db) && WellOrdered(db) && Leads(db, t, t', tries)
    ensures Wakeful(t', db)
  {
    var ts, steps :| Quietly(db, t, t', tries, ts, steps);
    assert forall i :: 0 <= i < |steps| ==> Quiet1(ts[i], tries, steps[i]);
    RunLosesNoWakeup(db, ts, steps, |steps|);
  }

  // ----- each of them is made of such steps -----

  lemma RemoveLeads(t: Tab, db: Db, u: UnitId, k1: JobKind, k2: Option<JobKind>, result: JobResult, us: ActiveState)
    requires TabInv(t) && RemoveSuspends(t, db, u, k1, k2, result, us).Ok?
    ensures Leads(db, t, RemoveSuspends(t, db, u, k1, k2, result, us).value, false)
  {
    CoreSound(t, {});
    LeadsStep(db, t, DoRemove(u, k1, k2, result, us), RemoveSuspends(t, db, u, k1, k2, result, us).value, false);
  }

  lemma {:induction false} FallbackLeads(t: Tab, db: Db, active: Active, us: seq<UnitId>)
    requires TabInv(t) && Fallback(t, db, active, us).Ok?
    ensures Leads(db, t, Fallback(t, db, active, us).value, false)
    decreases |us|
  {
    if us == [] {
      LeadsSelf(db, t, false);
    } else {
      RemoveLeads(t, db, us[0], Start, Some(Verify), Dependency, StateOf(active, us[0]));
      var t1 := RemoveSuspends(t, db, us[0], Start, Some(Verify), Dependency, StateOf(active, us[0])).value;
      LeadsKeeps(db, t, t1, false);
      FallbackLeads(t1, db, active, us[1..]);
      LeadsTrans(db, t, t1, Fallback(t, db, active, us).value, false);
    }
  }

  lemma FallbackOnLeads(t: Tab, db: Db, active: Active, u: UnitId, runKind: JobKind, result: JobResult)
    requires TabInv(t) && FallbackOn(t, db, active, u, runKind, result).Ok?
    ensures Leads(db, t, FallbackOn(t, db, active, u, runKind, result).value, false)
  {
    if result.Done? {
      LeadsSelf(db, t, false);
    } else {
      FallbackLeads(t, db, active, FallbackUnits(db, u, runKind));
    }
  }

  lemma DelTriggerLeads(t: Tab, db: Db, active: Active, u: UnitId, runKind: JobKind, result: JobResult)
    requires TabInv(t) && DelTrigger(t, db, active, u, runKind, result).Ok? && (u in t.recs ==> !t.recs[u].pause)
    ensures Leads(db, t, DelTrigger(t, db, active, u, runKind, result).value.0, false)
  {
    CoreSound(t, {});
    var t1 := JobTableState.FinishTrigger(t, db, u, result).value.0;
    LeadsStep(db, t, DoFinish(u, result), t1, false);
    LeadsKeeps(db, t, t1, false);
    FallbackOnLeads(t1, db, active, u, runKind, result);
    LeadsTrans(db, t, t1, DelTrigger(t, db, active, u, runKind, result).value.0, false);
  }

  lemma DelSuspendsLeads(t: Tab, db: Db, active: Active, info: JobInfo, result: JobResult)
    requires TabInv(t) && DelSuspends(t, db, active, info, result).Ok?
    ensures Leads(db, t, DelSuspends(t, db, active, info, result).value, false)
  {
    RemoveLeads(t, db, info.unit, info.kind, None, result, StateOf(active, info.unit));
    var t1 := RemoveSuspends(t, db, info.unit, info.kind, None, result, StateOf(active, info.unit)).value;
    LeadsKeeps(db, t, t1, false);
    FallbackOnLeads(t1, db, active, info.unit, info.runKind, result);
    LeadsTrans(db, t, t1, DelSuspends(t, db, active, info, result).value, false);
  }

  /** A job that has to go as the trigger of its unit is the trigger of a unit not paused. */
  predicate Removable(t: Tab, info: JobInfo) {
    IsTrigger(t, info.id) ==> info.unit in t.recs && !t.recs[info.unit].pause
  }

  lemma RemoveJobLeads(t: Tab, db: Db, active: Active, info: JobInfo, result: JobResult)
    requires TabInv(t) && RemoveJob(t, db, active, info, result).Ok? && Removable(t, info)
    ensures Leads(db, t, RemoveJob(t, db, active, info, result).value, false)
  {
    if IsTrigger(t, info.id) {
      DelTriggerLeads(t, db, active, info.unit, info.runKind, result);
    } else {
      DelSuspendsLeads(t, db, active, info, result);
    }
  }

  lemma DoTryFinishLeads(t: Tab, db: Db, active: Active, n: Note)
    requires TabInv(t) && DoTryFinish(t, db, active, n).Ok?
    ensures Leads(db, t, DoTryFinish(t, db, active, n).value, false)
  {
    CoreSound(t, {});
    LeadsSelf(db, t, false);
    if n.unit in t.recs && t.recs[n.unit].trigger.Some? {
      if t.recs[n.unit].pause {
        LeadsStep(db, t, DoResume(n.unit), ResumeUnit(t, n.unit).value, false);
      } else {
        var runKind := t.recs[n.unit].trigger.value.runKind;
        var v := ProcessUnit(runKind, n.ns, n.reloadFailure);
        if v.Ok? && v.value.0.Some? {
          DelTriggerLeads(t, db, active, n.unit, runKind, v.value.0.value);
        }
      }
    }
  }

  /** The job just handed over, unless it is to be tried again, belongs to a unit that is not
      paused, and still does when its report has been dealt with. */
  lemma SettleLeads(t: Tab, db: Db, active: Active, u: UnitId, out: RunOutcome, note: Option<Note>)
    requires TabInv(t) && u in t.recs && t.recs[u].trigger.Some? && (out.Finished? ==> !t.recs[u].pause)
    requires SettleTab(t, db, active, u, out, note).Ok?
    ensures Leads(db, t, SettleTab(t, db, active, u, out, note).value, false)
  {
    LeadsSelf(db, t, false);
    var t1 := if note.Some? then DoTryFinish(t, db, active, note.value).value else t;
    if note.Some? {
      DoTryFinishLeads(t, db, active, note.value);
    }
    if out.Finished? {
      var j := t.recs[u].trigger.value;
      var info := JobInfo(j.id, u, j.kind, j.runKind);
      StillRemovable(t, t1, db, info);
      LeadsKeeps(db, t, t1, false);
      RemoveJobLeads(t1, db, active, info, out.result);
      LeadsTrans(db, t, t1, SettleTab(t, db, active, u, out, note).value, false);
    }
  }

  lemma StillRemovable(t: Tab, t': Tab, db: Db, info: JobInfo)
    requires TabInv(t) && Leads(db, t, t', false)
    requires info.unit in t.recs && !t.recs[info.unit].pause
    requires t.recs[info.unit].trigger.Some? && t.recs[info.unit].trigger.value.id == info.id
    ensures Removable(t', info)
  {
    LeadsKeeps(db, t, t', false);
    var j := t.recs[info.unit].trigger.value;
    assert HeldIn(t.recs, info.unit, j.kind, j.id);
    assert Refers(t.ids, j.id, info.unit, j.kind);
  }

  // ----- what becomes of the dependants -----

  /** Only the suspended jobs of `r` are left in `r'`. */
  predicate NothingNew(recs: Recs, recs': Recs, v: UnitId) {
    v in recs' ==> v in recs && recs'[v].suspends.Keys <= recs[v].suspends.Keys
  }

  predicate NoStart(recs: Recs, v: UnitId) {
    v in recs ==> Start !in recs[v].suspends && Verify !in recs[v].suspends
  }

  lemma GivenUp(t: Tab, db: Db, u: UnitId, us: ActiveState, v: UnitId)
    requires TabInv(t) && RemoveSuspends(t, db, u, Start, Some(Verify), Dependency, us).Ok?
    ensures
      var recs' := RemoveSuspends(t, db, u, Start, Some(Verify), Dependency, us).value.recs;
      NothingNew(t.recs, recs', v) && (v == u ==> NoStart(recs', v))
  {
    RemoveSuspendsInv(t, db, u, Start, Some(Verify), Dependency, us);
    if u in t.recs {
      var r' := R.RemoveEntry(t.recs[u], Start, Some(Verify), Dependency, us).value;
      V.RemoveEntrySettles(t.recs[u], Start, Some(Verify), Dependency, us);
      RewrittenNothingNew(t.recs, RemoveSuspends(t, db, u, Start, Some(Verify), Dependency, us).value.recs, u, r', v);
    }
  }

  lemma RewrittenNothingNew(recs: Recs, recs': Recs, u: UnitId, r': R.Rec, v: UnitId)
    requires u in recs && Rewritten(recs, recs', u, r') && r'.suspends == recs[u].suspends - {Start} - {Verify}
    ensures NothingNew(recs, recs', v) && (v == u ==> NoStart(recs', v))
  {
    if v in recs' {
      assert recs'[v].suspends == if v == u then r'.suspends else recs[v].suspends;
    }
  }

  /** After a failure no unit the failure spreads to has a start or verify pending. */
  lemma {:induction false} FallbackClears(t: Tab, db: Db, active: Active, us: seq<UnitId>, v: UnitId)
    requires TabInv(t) && Fallback(t, db, active, us).Ok?
    ensures NothingNew(t.recs, Fallback(t, db, active, us).value.recs, v)
    ensures v in us ==> NoStart(Fallback(t, db, active, us).value.recs, v)
    decreases |us|
  {
    if us != [] {
      var t1 := RemoveSuspends(t, db, us[0], Start, Some(Verify), Dependency, StateOf(active, us[0])).value;
      GivenUp(t, db, us[0], StateOf(active, us[0]), v);
      RemoveSuspendsInv(t, db, us[0], Start, Some(Verify), Dependency, StateOf(active, us[0]));
      FallbackClears(t1, db, active, us[1..], v);
    }
  }
}
