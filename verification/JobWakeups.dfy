/** A commit does not look at the pause flags. Exactly when it leaves a unit paused that
    nothing will wake (process1/src/manager/unit/job/job_table.rs:491-568). */
module JobWakeups {
  import opened Outcomes
  import opened UnitBase
  import opened JobEntry
  import opened JobTableState
  import opened JobTableInvariant
  import opened JobTableSteps
  import opened JobTableCommit
  import opened JobTableRuns
  import opened JobTableProgress
  import C = JobTableCommitIds
  import R = JobUnitRecord
  import V = JobUnitInvariant

  /** Of these jobs, is the first in the queue due beside the trigger, and not a nop? */
  predicate DueFront(s: R.Suspends, trigger: Option<Job>) {
    var q := R.QueueOf(s);
    q != [] && !q[0].Nop? && (trigger.None? || IsStopping(q[0]))
  }

  lemma WaitingMeaning(r: R.Rec)
    requires V.Settled(r)
    ensures Waiting(r) <==> r.pause && DueFront(r.suspends, r.trigger)
    ensures Waiting(r) ==> r.sq == R.QueueOf(r.suspends)
  {
    OnlyNopQueued(r.suspends);
  }

  lemma OnlyNopQueued(s: R.Suspends)
    ensures s.Keys == {Nop} ==> R.QueueOf(s) == [Nop]
  {
  }

  /** Does one of these jobs have to go before `j`? */
  predicate JobsBlock(s: R.Suspends, trigger: Option<Job>, j: Job, atom: OrderAtom) {
    (exists k :: k in s && IsOrderWith(j, s[k], atom) > 0) || (trigger.Some? && IsOrderWith(j, trigger.value, atom) > 0)
  }

  /** Does a job that `v` holds after the commit, suspended or running, have to go before `j`
      of `u`? */
  predicate BlocksAfter(recs: Recs, s: Stage, env: CommitEnv, db: Db, u: UnitId, j: Job, v: UnitId) {
    var (jobs, trigger) := (CommittedSuspends(recs, s, env, v), OldRec(recs, v).trigger);
    (v in Gets(db, u, AtomAfter) && JobsBlock(jobs, trigger, j, After)) ||
    (v in Gets(db, u, AtomBefore) && JobsBlock(jobs, trigger, j, Before))
  }

  predicate BlockedAfter(recs: Recs, s: Stage, env: CommitEnv, db: Db, u: UnitId, j: Job) {
    exists v :: v in AllUnits(recs, s) && BlocksAfter(recs, s, env, db, u, j, v)
  }

  predicate DueAfter(recs: Recs, s: Stage, env: CommitEnv, u: UnitId)
    requires u in recs
  {
    recs[u].pause && DueFront(CommittedSuspends(recs, s, env, u), recs[u].trigger)
  }

  /** A paused unit whose next job is due after the commit is blocked by a job that a related
      unit holds after it. */
  predicate WakeupKept(recs: Recs, s: Stage, env: CommitEnv, db: Db, u: UnitId)
    requires u in recs
  {
    var jobs := CommittedSuspends(recs, s, env, u);
    DueAfter(recs, s, env, u) ==> R.QueueOf(jobs)[0] in jobs && BlockedAfter(recs, s, env, db, u, jobs[R.QueueOf(jobs)[0]])
  }

  // ----- what the committed table says -----

  /** What becomes of a unit's jobs and its pause. */
  predicate Becomes(recs: Recs, recs': Recs, s: Stage, env: CommitEnv, u: UnitId) {
    var was := OldRec(recs, u);
    if u in recs' then
      V.Settled(recs'[u]) && recs'[u].suspends == CommittedSuspends(recs, s, env, u) &&
      recs'[u].trigger == was.trigger && recs'[u].pause == was.pause
    else CommittedSuspends(recs, s, env, u) == map[] && was.trigger == None
  }

  lemma CommittedBecomes(recs: Recs, recs': Recs, s: Stage, env: CommitEnv, u: UnitId)
    requires AllCanCommit(recs, s, env) && CommittedTo(recs, recs', s, env) && u in AllUnits(recs, s)
    ensures Becomes(recs, recs', s, env, u)
  {
    assert CanCommit(recs, s, env, u);
    CommittedRecMeaning(recs, s, env, u);
    PlaceOf(recs, recs', s, env, u);
  }

  ghost predicate AllBecome(recs: Recs, recs': Recs, s: Stage, env: CommitEnv) {
    recs'.Keys <= AllUnits(recs, s) && forall u :: u in AllUnits(recs, s) ==> Becomes(recs, recs', s, env, u)
  }

  lemma BlocksBecomes(recs: Recs, recs': Recs, s: Stage, env: CommitEnv, db: Db, u: UnitId, j: Job, v: UnitId)
    requires AllBecome(recs, recs', s, env) && v in AllUnits(recs, s)
    ensures BlocksAfter(recs, s, env, db, u, j, v) <==> v in recs' && BlockedBy(recs', db, u, j, v)
  {
    assert Becomes(recs, recs', s, env, v);
  }

  lemma BlockedBecomes(recs: Recs, recs': Recs, s: Stage, env: CommitEnv, db: Db, u: UnitId, j: Job)
    requires AllBecome(recs, recs', s, env)
    ensures BlockedAfter(recs, s, env, db, u, j) <==> Blocked(recs', db, u, j)
  {
    if BlockedAfter(recs, s, env, db, u, j) {
      var v :| v in AllUnits(recs, s) && BlocksAfter(recs, s, env, db, u, j, v);
      BlocksBecomes(recs, recs', s, env, db, u, j, v);
    }
    if Blocked(recs', db, u, j) {
      var v :| v in recs' && BlockedBy(recs', db, u, j, v);
      BlocksBecomes(recs, recs', s, env, db, u, j, v);
    }
  }

  lemma KeptBecomes(recs: Recs, recs': Recs, s: Stage, env: CommitEnv, db: Db, u: UnitId)
    requires AllBecome(recs, recs', s, env) && AllSound(recs') && u in recs
    ensures WakeupKept(recs, s, env, db, u) <==> (u in recs' ==> HeldUp(recs', db, u))
  {
    assert Becomes(recs, recs', s, env, u);
    if u in recs' {
      WaitingMeaning(recs'[u]);
      if Waiting(recs'[u]) {
        BlockedBecomes(recs, recs', s, env, db, u, recs'[u].suspends[recs'[u].sq[0]]);
      }
    } else {
      assert R.QueueOf(map[]) == [];
    }
  }

  /** The commit leaves no paused unit without a reason to wait exactly when every unit that
      was paused before, and has a job due after it, is blocked by a job held after it. */
  lemma CommitWakeupIff(t: Tab, db: Db, s: Stage, env: CommitEnv, order: seq<UnitId>)
    requires TabInv(t) && StageOk(s) && Enumerates(order, AllUnits(t.recs, s))
    requires Commit(t, s, env, order).Ok? && Commit(t, s, env, order).value.Committed?
    ensures
      var recs' := Commit(t, s, env, order).value.tab.recs;
      AllSound(recs') && (NoLostWakeup(recs', db) <==> forall u :: u in t.recs ==> WakeupKept(t.recs, s, env, db, u))
  {
    C.CommitInv(t, s, env, order);
    C.AllReady(t, s, env);
    var t' := Commit(t, s, env, order).value.tab;
    CoreSound(t', {});
    EachBecomes(t.recs, t'.recs, s, env);
    AllKept(t.recs, t'.recs, s, env, db);
  }

  lemma EachBecomes(recs: Recs, recs': Recs, s: Stage, env: CommitEnv)
    requires AllCanCommit(recs, s, env) && CommittedTo(recs, recs', s, env)
    ensures AllBecome(recs, recs', s, env)
  {
    forall u | u in AllUnits(recs, s) ensures Becomes(recs, recs', s, env, u) {
      CommittedBecomes(recs, recs', s, env, u);
    }
  }

  lemma AllKept(recs: Recs, recs': Recs, s: Stage, env: CommitEnv, db: Db)
    requires AllBecome(recs, recs', s, env) && AllSound(recs')
    ensures NoLostWakeup(recs', db) <==> forall u :: u in recs ==> WakeupKept(recs, s, env, db, u)
  {
    forall u | u in recs ensures WakeupKept(recs, s, env, db, u) <==> (u in recs' ==> HeldUp(recs', db, u)) {
      KeptBecomes(recs, recs', s, env, db, u);
    }
    forall u | u in recs' && u !in recs ensures HeldUp(recs', db, u) {
      assert Becomes(recs, recs', s, env, u);
    }
  }

  // ----- the first way to lose one: a stop for a paused unit -----

  /** After the commit `v` holds a stop or restart bound to the ordering. */
  predicate StopsAfter(recs: Recs, s: Stage, env: CommitEnv, v: UnitId) {
    var (jobs, trigger) := (CommittedSuspends(recs, s, env, v), OldRec(recs, v).trigger);
    (exists k :: k in jobs && IsStopping(jobs[k].kind) && !jobs[k].ignoreOrder) ||
    (trigger.Some? && IsStopping(trigger.value.kind) && !trigger.value.ignoreOrder)
  }

  lemma StopBlockedBy(j: Job, h: Job)
    requires j.kind.Stop?
    ensures !(IsOrderWith(j, h, After) > 0)
    ensures IsOrderWith(j, h, Before) > 0 <==> !j.ignoreOrder && !h.ignoreOrder && IsStopping(h.kind)
  {
  }

  lemma StopBlocked(recs: Recs, s: Stage, env: CommitEnv, db: Db, u: UnitId, j: Job)
    requires j.kind.Stop?
    ensures BlockedAfter(recs, s, env, db, u, j) <==>
      !j.ignoreOrder && exists v :: v in AllUnits(recs, s) && v in Gets(db, u, AtomBefore) && StopsAfter(recs, s, env, v)
  {
    forall v ensures BlocksAfter(recs, s, env, db, u, j, v) <==> !j.ignoreOrder && v in Gets(db, u, AtomBefore) && StopsAfter(recs, s, env, v) {
      StopBlocks(recs, s, env, db, u, j, v);
    }
  }

  lemma StopBlocks(recs: Recs, s: Stage, env: CommitEnv, db: Db, u: UnitId, j: Job, v: UnitId)
    requires j.kind.Stop?
    ensures BlocksAfter(recs, s, env, db, u, j, v) <==> !j.ignoreOrder && v in Gets(db, u, AtomBefore) && StopsAfter(recs, s, env, v)
  {
    forall h: Job
      ensures !(IsOrderWith(j, h, After) > 0)
      ensures IsOrderWith(j, h, Before) > 0 <==> !j.ignoreOrder && !h.ignoreOrder && IsStopping(h.kind)
    {
      StopBlockedBy(j, h);
    }
  }

  /** A paused unit that is given a stop stays paused with nothing else queued. It is held up
      for a reason exactly when the stop is bound to the ordering and some unit that `u` comes
      before holds a stop or restart after the commit. */
  lemma CommitForgetsPause(t: Tab, db: Db, s: Stage, env: CommitEnv, order: seq<UnitId>, u: UnitId)
    requires TabInv(t) && StageOk(s) && Enumerates(order, AllUnits(t.recs, s))
    requires Commit(t, s, env, order).Ok? && Commit(t, s, env, order).value.Committed?
    requires u in t.recs && t.recs[u].pause && u in s.units && Stop in s.units[u]
    ensures
      var recs' := Commit(t, s, env, order).value.tab.recs;
      && u in recs' && Waiting(recs'[u]) && recs'[u].sq == [Stop] && R.QueueSound(recs'[u])
      && (HeldUp(recs', db, u) <==>
            !recs'[u].suspends[Stop].ignoreOrder &&
            exists v :: v in AllUnits(t.recs, s) && v in Gets(db, u, AtomBefore) && StopsAfter(t.recs, s, env, v))
  {
    C.CommitInv(t, s, env, order);
    C.AllReady(t, s, env);
    var recs' := Commit(t, s, env, order).value.tab.recs;
    EachBecomes(t.recs, recs', s, env);
    StopCommitted(t.recs, s, env, u);
    StopHeldUp(t.recs, recs', s, env, db, u);
  }

  lemma StopCommitted(recs: Recs, s: Stage, env: CommitEnv, u: UnitId)
    requires u in recs && u in s.units && Stop in s.units[u]
    ensures Stop in CommittedSuspends(recs, s, env, u)
  {
    assert Stop in R.Union(V.MergeBase(recs[u].suspends, s.units[u]), s.units[u]);
  }

  lemma StopHeldUp(recs: Recs, recs': Recs, s: Stage, env: CommitEnv, db: Db, u: UnitId)
    requires AllBecome(recs, recs', s, env) && u in recs && recs[u].pause && Stop in CommittedSuspends(recs, s, env, u)
    ensures u in recs' && Waiting(recs'[u]) && recs'[u].sq == [Stop] && R.QueueSound(recs'[u])
    ensures HeldUp(recs', db, u) <==>
      !recs'[u].suspends[Stop].ignoreOrder &&
      exists v :: v in AllUnits(recs, s) && v in Gets(db, u, AtomBefore) && StopsAfter(recs, s, env, v)
  {
    assert Becomes(recs, recs', s, env, u);
    V.SettledQueueSound(recs'[u]);
    WaitingMeaning(recs'[u]);
    var j := recs'[u].suspends[Stop];
    BlockedBecomes(recs, recs', s, env, db, u, j);
    StopBlocked(recs, s, env, db, u, j);
  }

  // ----- over runs, commits included -----

  /** No staged job but a nop ignores the ordering. */
  predicate OrderlyStage(s: Stage) {
    forall u, k :: u in s.units && k in s.units[u] && !k.Nop? ==> !s.units[u][k].ignoreOrder
  }

  lemma OrderlyUnion(was: R.Suspends, o: R.Suspends, us: ActiveState)
    requires forall k :: k in was && !k.Nop? ==> !was[k].ignoreOrder
    requires forall k :: k in o && !k.Nop? ==> !o[k].ignoreOrder
    ensures forall k :: k in R.NormalForm(R.Union(was, o), us) && !k.Nop? ==> !R.NormalForm(R.Union(was, o), us)[k].ignoreOrder
  {
    var n := R.NormalForm(R.Union(was, o), us);
    assert forall k :: k in n ==> k in R.Union(was, o) && n[k] == R.Union(was, o)[k];
  }

  lemma CommitOrderly(recs: Recs, recs': Recs, s: Stage, env: CommitEnv, u: UnitId)
    requires AllBecome(recs, recs', s, env) && AllOrderly(recs) && OrderlyStage(s) && u in recs'
    ensures Orderly(recs'[u])
  {
    assert Becomes(recs, recs', s, env, u);
    if u in s.units {
      OrderlyUnion(V.MergeBase(OldRec(recs, u).suspends, s.units[u]), s.units[u], ActiveOf(env, u));
    }
  }

  /** A commit of such a stage, or one of the steps that lose no wakeup by themselves. */
  predicate Manageable(t: Tab, step: Step) {
    if step.DoCommit? then OrderlyStage(step.stage) else WakefulStep(t, step)
  }

  /** A commit that is carried out keeps every unit's wakeup. */
  ghost predicate KeepsWakeups(t: Tab, db: Db, step: Step) {
    step.DoCommit? && t.ids.Keys !! step.stage.ids.Keys ==> forall u :: u in t.recs ==> WakeupKept(t.recs, step.stage, step.env, db, u)
  }

  lemma CommitWakes(t: Tab, db: Db, s: Stage, env: CommitEnv, order: seq<UnitId>)
    requires TabInv(t) && StageOk(s) && Enumerates(order, AllUnits(t.recs, s)) && OrderlyStage(s) && AllOrderly(t.recs)
    requires Commit(t, s, env, order).Ok? && Commit(t, s, env, order).value.Committed?
    ensures
      Wakeful(Commit(t, s, env, order).value.tab, db) <==> forall u :: u in t.recs ==> WakeupKept(t.recs, s, env, db, u)
  {
    CommitWakeupIff(t, db, s, env, order);
    C.CommitInv(t, s, env, order);
    C.AllReady(t, s, env);
    var recs' := Commit(t, s, env, order).value.tab.recs;
    EachBecomes(t.recs, recs', s, env);
    forall u | u in recs' ensures Orderly(recs'[u]) {
      CommitOrderly(t.recs, recs', s, env, u);
    }
  }

  lemma StepWakes(t: Tab, db: Db, step: Step, t': Tab)
    requires TabInv(t) && Takes(t, db, step, t') && Manageable(t, step) && WellOrdered(db) && Wakeful(t, db) && TabInv(t')
    ensures Wakeful(t', db) <==> KeepsWakeups(t, db, step)
  {
    if step.DoCommit? {
      CommitOutcome(t, step.stage, step.env, step.order);
      if Commit(t, step.stage, step.env, step.order).value.Committed? {
        CommitWakes(t, db, step.stage, step.env, step.order);
      }
    } else {
      StepKeepsWakeups(t, db, step, t');
      OrderlyKept(t, db, step, t');
    }
  }

  lemma CommitOutcome(t: Tab, s: Stage, env: CommitEnv, order: seq<UnitId>)
    requires Commit(t, s, env, order).Ok?
    ensures Commit(t, s, env, order).value.Committed? <==> t.ids.Keys !! s.ids.Keys
  {
  }

  /** Over every run of commits, tries, removals, resumptions and finishes of units that are
      not paused: as long as every commit keeps every unit's wakeup none is lost, and the first
      that does not loses one. */
  lemma {:induction false} RunWakesUntil(db: Db, ts: seq<Tab>, steps: seq<Step>, i: nat)
    requires IsRun(db, ts, steps) && TabInv(ts[0]) && WellOrdered(db) && Wakeful(ts[0], db) && i < |ts|
    requires forall n :: 0 <= n < |steps| ==> Manageable(ts[n], steps[n])
    requires forall n :: 0 <= n < i - 1 ==> KeepsWakeups(ts[n], db, steps[n])
    ensures TabInv(ts[i]) && (Wakeful(ts[i], db) <==> i == 0 || KeepsWakeups(ts[i - 1], db, steps[i - 1]))
  {
    RunKeepsInvariant(db, ts, steps, i);
    if i > 0 {
      RunWakesUntil(db, ts, steps, i - 1);
      assert Takes(ts[i - 1], db, steps[i - 1], ts[i]);
      StepWakes(ts[i - 1], db, steps[i - 1], ts[i]);
    }
  }
}
