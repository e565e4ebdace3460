/** What the end of a job, reported or answered, does to the units around it
    (process1/src/manager/unit/job/job_entry.rs, job_manager.rs, job_transaction.rs). */
module JobReports {
  import opened Outcomes
  import opened UnitBase
  import opened JobEntry
  import opened JobExpansion
  import opened JobTableState
  import opened JobTableInvariant
  import opened JobTableSteps
  import opened JobFinish
  import R = JobUnitRecord
  import V = JobUnitInvariant

  // ----- how a phase ends -----

  /** The states in which a start, stop or reload may end well. */
  predicate EndsWell(phase: JobKind, n: Note) {
    match phase
    case Start => n.ns.UnitActive? || n.ns.UnitInActive?
    case Stop => n.ns.UnitInActive? || n.ns.UnitFailed?
    case Reload => (n.ns.UnitActive? && !n.reloadFailure) || n.ns.UnitInActive?
    case _ => false
  }

  /** The states in which it has failed: a start that leaves the unit failed, a stop after which
      the unit is still up, a reload that says so. */
  predicate EndsBadly(phase: JobKind, n: Note) {
    match phase
    case Start => n.ns.UnitFailed?
    case Stop => n.ns.UnitActive? || n.ns.UnitReloading? || n.ns.UnitActivating? || n.ns.UnitMaintenance?
    case Reload => n.ns.UnitFailed? || (n.ns.UnitActive? && n.reloadFailure)
    case _ => false
  }

  lemma VerdictMeaning(phase: JobKind, n: Note)
    requires phase.Start? || phase.Stop? || phase.Reload?
    ensures ProcessUnit(phase, n.ns, n.reloadFailure).Ok?
    ensures
      ProcessUnit(phase, n.ns, n.reloadFailure).value.0 ==
        if EndsWell(phase, n) then Some(Done) else if EndsBadly(phase, n) then Some(Failed) else None
  {
  }

  /** The units a failure spreads to: of a start or verify to those that need the unit, of a
      stop to those that conflict with it, of anything else to none. */
  predicate SpreadsTo(db: Db, u: UnitId, phase: JobKind, v: UnitId) {
    match phase
    case Start | Verify => v in Gets(db, u, PropagateStartFailure)
    case Stop => v in Gets(db, u, PropagateStopFailure)
    case _ => false
  }

  lemma SpreadMeaning(db: Db, u: UnitId, phase: JobKind, v: UnitId)
    ensures v in FallbackUnits(db, u, phase) <==> SpreadsTo(db, u, phase, v)
  {
  }

  // ----- which units keep their jobs -----

  /** The unit has the jobs it had. */
  predicate SameJobs(recs: Recs, recs': Recs, v: UnitId) {
    (v in recs <==> v in recs') && (v in recs ==> recs'[v].suspends == recs[v].suspends && recs'[v].trigger == recs[v].trigger)
  }

  /** It runs what it ran. */
  predicate SameTrigger(recs: Recs, recs': Recs, v: UnitId) {
    (v in recs' ==> v in recs && recs'[v].trigger == recs[v].trigger) && (v in recs && v !in recs' ==> recs[v].trigger.None?)
  }

  lemma RewrittenSpares(recs: Recs, recs': Recs, u: UnitId, r': R.Rec, v: UnitId)
    requires u in recs && Rewritten(recs, recs', u, r')
    ensures v != u ==> SameJobs(recs, recs', v)
    ensures r'.trigger == recs[u].trigger ==> SameTrigger(recs, recs', v)
    ensures v == u && v in recs' ==> recs'[v].trigger == r'.trigger && recs'[v].suspends == r'.suspends
  {
    if v in recs' {
      assert Resumed(if v == u then r' else recs[v], recs'[v]);
    }
  }

  lemma RemovalSpares(t: Tab, db: Db, u: UnitId, k1: JobKind, k2: Option<JobKind>, result: JobResult, us: ActiveState, v: UnitId)
    requires TabInv(t) && RemoveSuspends(t, db, u, k1, k2, result, us).Ok?
    ensures
      var recs' := RemoveSuspends(t, db, u, k1, k2, result, us).value.recs;
      (v != u ==> SameJobs(t.recs, recs', v)) && SameTrigger(t.recs, recs', v)
  {
    RemoveSuspendsInv(t, db, u, k1, k2, result, us);
    if u in t.recs {
      V.RemoveEntrySettles(t.recs[u], k1, k2, result, us);
      var r' := R.RemoveEntry(t.recs[u], k1, k2, result, us).value;
      RewrittenSpares(t.recs, RemoveSuspends(t, db, u, k1, k2, result, us).value.recs, u, r', v);
    }
  }

  lemma {:induction false} FallbackSpares(t: Tab, db: Db, active: Active, us: seq<UnitId>, v: UnitId)
    requires TabInv(t) && Fallback(t, db, active, us).Ok?
    ensures
      var recs' := Fallback(t, db, active, us).value.recs;
      (v !in us ==> SameJobs(t.recs, recs', v)) && SameTrigger(t.recs, recs', v)
    decreases |us|
  {
    if us != [] {
      var s := StateOf(active, us[0]);
      RemovalSpares(t, db, us[0], Start, Some(Verify), Dependency, s, v);
      RemoveSuspendsInv(t, db, us[0], Start, Some(Verify), Dependency, s);
      FallbackSpares(RemoveSuspends(t, db, us[0], Start, Some(Verify), Dependency, s).value, db, active, us[1..], v);
    }
  }

  /** After a failure nothing is pending where it spreads to, and everything where it does not. */
  lemma SpreadOutcome(t: Tab, db: Db, active: Active, u: UnitId, phase: JobKind, result: JobResult, v: UnitId)
    requires TabInv(t) && FallbackOn(t, db, active, u, phase, result).Ok?
    ensures
      var recs' := FallbackOn(t, db, active, u, phase, result).value.recs;
      && SameTrigger(t.recs, recs', v)
      && if result != Done && SpreadsTo(db, u, phase, v) then NoStart(recs', v) else SameJobs(t.recs, recs', v)
  {
    SpreadMeaning(db, u, phase, v);
    if result != Done {
      FallbackSpares(t, db, active, FallbackUnits(db, u, phase), v);
      FallbackClears(t, db, active, FallbackUnits(db, u, phase), v);
    }
  }

  /** A restart in its stop phase, and one waiting for its start phase. */
  predicate StopPhase(j: Job) {
    j.kind.Restart? && j.runKind.Stop?
  }

  predicate StartPhaseNext(r: R.Rec) {
    r.trigger.Some? && r.trigger.value.kind.Restart? && r.trigger.value.runKind.Start? && r.trigger.value.stage.Wait? && r.retrigger
  }

  lemma FinishSpares(t: Tab, db: Db, u: UnitId, result: JobResult, v: UnitId)
    requires TabInv(t) && JobTableState.FinishTrigger(t, db, u, result).Ok? && u in t.recs && t.recs[u].trigger.Some?
    ensures
      var recs' := JobTableState.FinishTrigger(t, db, u, result).value.0.recs;
      && (v != u ==> SameJobs(t.recs, recs', v))
      && (v == u && v in recs' ==> recs'[v].suspends == t.recs[v].suspends)
      && (v == u && v in recs' && recs'[v].trigger.Some? ==> result == Done && t.recs[v].trigger.value.kind.Restart?)
      && (v == u && result == Done && StopPhase(t.recs[v].trigger.value) ==> v in recs' && StartPhaseNext(recs'[v]))
  {
    FinishTriggerInv(t, db, u, result);
    var r' := V.FinishedRec(t.recs[u], result);
    FinishRetriesIff(t.recs[u].trigger.value, result);
    RewrittenSpares(t.recs, JobTableState.FinishTrigger(t, db, u, result).value.0.recs, u, r', v);
  }

  predicate TriggerGone(recs: Recs, u: UnitId) {
    u in recs ==> recs[u].trigger.None?
  }

  /** The end of the trigger of `u`, seen from unit `v`. */
  lemma EndOutcome(t: Tab, db: Db, active: Active, u: UnitId, phase: JobKind, result: JobResult, v: UnitId)
    requires TabInv(t) && u in t.recs && t.recs[u].trigger.Some? && DelTrigger(t, db, active, u, phase, result).Ok?
    ensures
      var recs' := DelTrigger(t, db, active, u, phase, result).value.0.recs;
      && (result != Done || !t.recs[u].trigger.value.kind.Restart? ==> TriggerGone(recs', u))
      && (result == Done && StopPhase(t.recs[u].trigger.value) ==> u in recs' && StartPhaseNext(recs'[u]))
      && (result != Done && SpreadsTo(db, u, phase, v) ==> NoStart(recs', v))
      && (v != u && !(result != Done && SpreadsTo(db, u, phase, v)) ==> SameJobs(t.recs, recs', v))
  {
    var t1 := JobTableState.FinishTrigger(t, db, u, result).value.0;
    FinishTriggerInv(t, db, u, result);
    FinishSpares(t, db, u, result, v);
    FinishSpares(t, db, u, result, u);
    SpreadOutcome(t1, db, active, u, phase, result, v);
    SpreadOutcome(t1, db, active, u, phase, result, u);
  }

  // ----- reports -----

  /** The report is about a unit that runs a job and is not paused. */
  predicate Concerns(t: Tab, n: Note) {
    n.unit in t.recs && t.recs[n.unit].trigger.Some? && !t.recs[n.unit].pause
  }

  /** What a report does, told from the phase and the state that is reported: a failure ends the
      job and gives up the starts and verifies pending where it spreads to, and nothing else; a
      success ends it, or ends the stop phase of a restart, and no other unit loses a job; and any
      other state changes nothing. */
  ghost predicate ReportDone(t: Tab, t': Tab, db: Db, n: Note)
    requires Concerns(t, n)
  {
    var (u, j) := (n.unit, t.recs[n.unit].trigger.value);
    var phase := j.runKind;
    (phase.Start? || phase.Stop? || phase.Reload?) &&
    if EndsBadly(phase, n) then
      TriggerGone(t'.recs, u) &&
      forall v :: if SpreadsTo(db, u, phase, v) then NoStart(t'.recs, v) else v != u ==> SameJobs(t.recs, t'.recs, v)
    else if EndsWell(phase, n) then
      (!j.kind.Restart? ==> TriggerGone(t'.recs, u)) &&
      (StopPhase(j) ==> u in t'.recs && StartPhaseNext(t'.recs[u])) && forall v :: v != u ==> SameJobs(t.recs, t'.recs, v)
    else t' == t
  }

  lemma ReportOutcome(t: Tab, db: Db, active: Active, n: Note)
    requires TabInv(t) && Concerns(t, n)
    requires DoTryFinish(t, db, active, n).Ok?
    ensures ReportDone(t, DoTryFinish(t, db, active, n).value, db, n)
  {
    var (u, phase) := (n.unit, t.recs[n.unit].trigger.value.runKind);
    VerdictMeaning(phase, n);
    var t' := DoTryFinish(t, db, active, n).value;
    if EndsWell(phase, n) || EndsBadly(phase, n) {
      var result := if EndsWell(phase, n) then Done else Failed;
      EndOutcome(t, db, active, u, phase, result, u);
      forall v
        ensures result != Done && SpreadsTo(db, u, phase, v) ==> NoStart(t'.recs, v)
        ensures v != u && !(result != Done && SpreadsTo(db, u, phase, v)) ==> SameJobs(t.recs, t'.recs, v)
      {
        EndOutcome(t, db, active, u, phase, result, v);
      }
    }
  }

  // ----- answers -----

  /** The first queued job of `u` is next, and is handed over. */
  predicate HandsOver(t: Tab, db: Db, order: seq<UnitId>, a: Answer, u: UnitId)
    requires AllSound(t.recs)
  {
    && u in t.recs && V.QueueDue(t.recs[u]) && Next(t, order).Some? && Next(t, order).value.0 == u
    && var e := TryTrigger(t, db, order, a.act, a.us); e.Ok? && e.value.1.Triggered?
  }

  /** The phase its first queued job begins with. */
  function FirstPhase(r: R.Rec): JobKind
    requires r.sq != []
  {
    RunKindNew(r.sq[0])
  }

  lemma HandedVia(t: Tab, db: Db, order: seq<UnitId>, a: Answer, u: UnitId)
    requires TabInv(t) && AllSound(t.recs) && HandsOver(t, db, order, a, u)
    ensures t.recs[u].sq != [] && TriggerUnit(FirstPhase(t.recs[u]), a.act, a.us).Ok?
    ensures TryTrigger(t, db, order, a.act, a.us).value.1.out == TriggerUnit(FirstPhase(t.recs[u]), a.act, a.us).value
  {
    V.HandOver(t.recs[u], a.act, a.us);
  }

  lemma HandedAnswer(t: Tab, db: Db, order: seq<UnitId>, a: Answer, u: UnitId)
    requires TabInv(t) && AllSound(t.recs) && HandsOver(t, db, order, a, u)
    ensures t.recs[u].sq != []
    ensures AnswerMeans(FirstPhase(t.recs[u]), a.act, a.us, TryTrigger(t, db, order, a.act, a.us).value.1.out)
  {
    HandedVia(t, db, order, a, u);
    AnswerMeaning(FirstPhase(t.recs[u]), a.act, a.us);
  }

  lemma HandedShape(r: R.Rec, r': R.Rec, out: RunOutcome, merged: Option<Job>)
    requires V.Settled(r) && V.QueueDue(r) && Handed(r, r', out, merged)
    ensures r.sq != [] && r'.trigger.Some? && r'.trigger.value.runKind == FirstPhase(r) && (out.Finished? ==> !r'.pause)
  {
  }

  lemma PutSpares(recs: Recs, recs': Recs, u: UnitId, v: UnitId)
    requires u in recs' && recs' == recs[u := recs'[u]] && u in recs && v != u
    ensures SameJobs(recs, recs', v)
  {
  }

  /** The job has become the trigger. */
  ghost predicate HandedTo(t: Tab, t': Tab, u: UnitId, out: RunOutcome) {
    && TabInv(t') && u in t.recs && t.recs[u].sq != [] && u in t'.recs && t'.recs == t.recs[u := t'.recs[u]]
    && t'.recs[u].trigger.Some? && t'.recs[u].trigger.value.runKind == FirstPhase(t.recs[u]) && (out.Finished? ==> !t'.recs[u].pause)
  }

  lemma HandedJob(t: Tab, db: Db, order: seq<UnitId>, a: Answer, u: UnitId) returns (t': Tab, out: RunOutcome)
    requires TabInv(t) && AllSound(t.recs) && Enumerates(order, t.ix.tReady) && HandsOver(t, db, order, a, u)
    ensures t' == TryTrigger(t, db, order, a.act, a.us).value.0 && out == TryTrigger(t, db, order, a.act, a.us).value.1.out
    ensures TryTrigger(t, db, order, a.act, a.us).value.1.unit == u && HandedTo(t, t', u, out)
  {
    TrySomething(t, db, order, a.act, a.us);
    var tried := TryTrigger(t, db, order, a.act, a.us).value.1;
    t', out := TryTrigger(t, db, order, a.act, a.us).value.0, tried.out;
    HandedShape(t.recs[u], t'.recs[u], out, tried.merged);
  }

  /** The round goes on with what the hand-over left. */
  lemma RoundGoesOn(t: Tab, db: Db, active: Active, order: seq<UnitId>, a: Answer, u: UnitId, t1: Tab, out: RunOutcome)
    requires AllSound(t.recs) && RoundTab(t, db, active, order, a).Ok?
    requires TryTrigger(t, db, order, a.act, a.us).Ok? && TryTrigger(t, db, order, a.act, a.us).value.0 == t1
    requires
      var tried := TryTrigger(t, db, order, a.act, a.us).value.1;
      tried.Triggered? && tried.unit == u && tried.out == out
    requires u in t1.recs && t1.recs[u].trigger.Some?
    ensures SettleTab(t1, db, active, u, out, a.note) == Ok(RoundTab(t, db, active, order, a).value.0)
  {
  }

  /** A job that ends with a failure takes the starts and verifies with it where that spreads to. */
  lemma RemovedSpreads(t: Tab, db: Db, active: Active, info: JobInfo, result: JobResult, v: UnitId)
    requires TabInv(t) && RemoveJob(t, db, active, info, result).Ok? && result != Done && SpreadsTo(db, info.unit, info.runKind, v)
    ensures NoStart(RemoveJob(t, db, active, info, result).value.recs, v)
  {
    var (u, phase) := (info.unit, info.runKind);
    if IsTrigger(t, info.id) {
      FinishTriggerInv(t, db, u, result);
      SpreadOutcome(JobTableState.FinishTrigger(t, db, u, result).value.0, db, active, u, phase, result, v);
    } else {
      var us := StateOf(active, u);
      RemoveSuspendsInv(t, db, u, info.kind, None, result, us);
      SpreadOutcome(RemoveSuspends(t, db, u, info.kind, None, result, us).value, db, active, u, phase, result, v);
    }
  }

  /** A hand-over that is answered with a failure: after the round no start or verify is pending
      for any unit the failure spreads to, whatever was reported meanwhile. */
  lemma FailedHandOver(t: Tab, db: Db, active: Active, order: seq<UnitId>, a: Answer, u: UnitId, v: UnitId)
    requires TabInv(t) && AllSound(t.recs) && Enumerates(order, t.ix.tReady) && HandsOver(t, db, order, a, u)
    requires RoundTab(t, db, active, order, a).Ok?
    requires
      var out := TryTrigger(t, db, order, a.act, a.us).value.1.out;
      out.Finished? && out.result != Done && t.recs[u].sq != [] && SpreadsTo(db, u, FirstPhase(t.recs[u]), v)
    ensures NoStart(RoundTab(t, db, active, order, a).value.0.recs, v)
  {
    var t1, out := HandedJob(t, db, order, a, u);
    RoundGoesOn(t, db, active, order, a, u, t1, out);
    SettledSpreads(t1, db, active, u, out, a.note, v);
  }

  lemma SettledSpreads(t: Tab, db: Db, active: Active, u: UnitId, out: RunOutcome, note: Option<Note>, v: UnitId)
    requires TabInv(t) && u in t.recs && t.recs[u].trigger.Some? && SettleTab(t, db, active, u, out, note).Ok?
    requires out.Finished? && out.result != Done && SpreadsTo(db, u, t.recs[u].trigger.value.runKind, v)
    ensures NoStart(SettleTab(t, db, active, u, out, note).value.recs, v)
  {
    var j := t.recs[u].trigger.value;
    LeadsSelf(db, t, false);
    var t1 := if note.Some? then DoTryFinish(t, db, active, note.value).value else t;
    if note.Some? {
      DoTryFinishLeads(t, db, active, note.value);
    }
    LeadsKeeps(db, t, t1, false);
    RemovedSpreads(t1, db, active, JobInfo(j.id, u, j.kind, j.runKind), out.result, v);
  }

  /** So a verify holds up what it was asked for: if its unit is neither up nor on its way, no unit
      that needs it has a start or verify pending after the round. */
  lemma VerifyHolds(t: Tab, db: Db, active: Active, order: seq<UnitId>, a: Answer, u: UnitId, v: UnitId)
    requires TabInv(t) && AllSound(t.recs) && Enumerates(order, t.ix.tReady) && HandsOver(t, db, order, a, u)
    requires RoundTab(t, db, active, order, a).Ok? && t.recs[u].sq != [] && t.recs[u].sq[0].Verify?
    requires !a.us.UnitActive? && !a.us.UnitReloading? && !a.us.UnitActivating? && v in Gets(db, u, PropagateStartFailure)
    ensures NoStart(RoundTab(t, db, active, order, a).value.0.recs, v)
  {
    HandedAnswer(t, db, order, a, u);
    FailedHandOver(t, db, active, order, a, u, v);
  }

  /** And lets it go if its unit is up: the verify is done, and no other unit loses a job. */
  lemma VerifyPasses(t: Tab, db: Db, active: Active, order: seq<UnitId>, a: Answer, u: UnitId, v: UnitId)
    requires TabInv(t) && AllSound(t.recs) && Enumerates(order, t.ix.tReady) && HandsOver(t, db, order, a, u)
    requires RoundTab(t, db, active, order, a).Ok? && a.note.None? && t.recs[u].sq != [] && t.recs[u].sq[0].Verify?
    requires a.us.UnitActive? || a.us.UnitReloading?
    ensures TriggerGone(RoundTab(t, db, active, order, a).value.0.recs, u)
    ensures v != u ==> SameJobs(t.recs, RoundTab(t, db, active, order, a).value.0.recs, v)
  {
    HandedAnswer(t, db, order, a, u);
    var t1, out := HandedJob(t, db, order, a, u);
    RoundGoesOn(t, db, active, order, a, u, t1, out);
    DoneTrigger(t1, db, active, u, out, a.note, v);
    if v != u {
      PutSpares(t.recs, t1.recs, u, v);
    }
  }

  /** The trigger of a unit answers that it is done. */
  lemma DoneTrigger(t: Tab, db: Db, active: Active, u: UnitId, out: RunOutcome, note: Option<Note>, v: UnitId)
    requires TabInv(t) && u in t.recs && t.recs[u].trigger.Some? && t.recs[u].trigger.value.runKind.Verify?
    requires out == Finished(Done) && note.None? && SettleTab(t, db, active, u, out, note).Ok?
    ensures
      var recs' := SettleTab(t, db, active, u, out, note).value.recs;
      TriggerGone(recs', u) && (v != u ==> SameJobs(t.recs, recs', v))
  {
    var j := t.recs[u].trigger.value;
    assert HeldIn(t.recs, u, j.kind, j.id);
    assert Refers(t.ids, j.id, u, j.kind);
    assert V.Settled(t.recs[u]);
    EndOutcome(t, db, active, u, j.runKind, Done, v);
  }

  // ----- cancelling -----

  /** A suspended job that is taken out leaves, and of its unit's jobs it alone; and with a result
      other than success so does what it spreads to. */
  lemma CancelOutcome(t: Tab, db: Db, active: Active, info: JobInfo, result: JobResult, v: UnitId)
    requires TabInv(t) && !IsTrigger(t, info.id) && RemoveJob(t, db, active, info, result).Ok?
    ensures
      var recs' := RemoveJob(t, db, active, info, result).value.recs;
      && SameTrigger(t.recs, recs', v)
      && (result != Done && SpreadsTo(db, info.unit, info.runKind, v) ==> NoStart(recs', v))
      && (!(result != Done && SpreadsTo(db, info.unit, info.runKind, v)) ==>
            if v != info.unit then SameJobs(t.recs, recs', v)
            else v in recs' ==> v in t.recs && recs'[v].suspends == t.recs[v].suspends - {info.kind})
  {
    var (u, us) := (info.unit, StateOf(active, info.unit));
    RemoveSuspendsInv(t, db, u, info.kind, None, result, us);
    RemovalSpares(t, db, u, info.kind, None, result, us, v);
    var t1 := RemoveSuspends(t, db, u, info.kind, None, result, us).value;
    SpreadOutcome(t1, db, active, u, info.runKind, result, v);
    if u in t.recs {
      V.RemoveEntrySettles(t.recs[u], info.kind, None, result, us);
      RewrittenSpares(t.recs, t1.recs, u, R.RemoveEntry(t.recs[u], info.kind, None, result, us).value, v);
    }
  }
}
