/** The job manager: requests are executed, jobs are run in a loop until nothing is ready,
    and reports of units finish them
    (process1/src/manager/unit/job/job_manager.rs). */
module JobManager {
  import opened Outcomes
  import opened UnitBase
  import opened JobEntry
  import opened JobAlloc
  import opened JobExpansion
  import opened JobTransaction
  import opened JobVerify
  import opened JobStat
  import opened JobCounts
  import opened JobUnderflow
  import opened JobStages
  import P = JobTableProgress
  import opened JobWork
  import opened JobFinish
  import opened JobCommitBatch
  import opened JobReports
  import opened JobTableObject
  import S = JobTableState
  import I = JobTableInvariant
  import T = JobTableSteps
  import M = JobTableCommit
  import C = JobTableCommitIds
  import Runs = JobTableRuns
  import R = JobUnitRecord
  import V = JobUnitInvariant

  // ----- listing kinds for the statistics -----

  predicate BasicIds(m: Ids) {
    forall id :: id in m ==> IsBasic(m[id].kind)
  }

  lemma TabBasic(t: S.Tab)
    requires I.TabInv(t)
    ensures BasicIds(t.ids)
  {
    forall id | id in t.ids ensures IsBasic(t.ids[id].kind) {
      var u, k := t.ids[id].unit, t.ids[id].kind;
      assert I.Refers(t.ids, id, u, k);
      assert I.HeldIn(t.recs, u, k, id);
      assert V.Settled(t.recs[u]);
    }
  }

  lemma OneListed(ks: seq<JobKind>, rest: Ids, id: nat, k: JobKind)
    requires id in rest
    ensures Count(ks + [rest[id].kind], k) + CountOf(rest - {id}, k) == Count(ks, k) + CountOf(rest, k)
  {
    assert (ks + [rest[id].kind])[..|ks|] == ks;
    CountWithout(rest, id, k);
  }

  lemma CountWithout(m: Ids, id: nat, k: JobKind)
    requires id in m
    ensures CountOf(m, k) == CountOf(m - {id}, k) + if m[id].kind == k then 1 else 0
  {
    if m[id].kind == k {
      assert OfKind(m, k) == OfKind(m - {id}, k) + {id};
    } else {
      assert OfKind(m, k) == OfKind(m - {id}, k);
    }
  }

  method ListKinds(m: Ids) returns (ks: seq<JobKind>)
    requires BasicIds(m)
    ensures AllBasic(ks) && |ks| == |m| && forall k :: Count(ks, k) == CountOf(m, k)
  {
    ks := [];
    var rest := m;
    while rest != map[]
      invariant AllBasic(ks) && |ks| + |rest| == |m| && BasicIds(rest)
      invariant forall k :: Count(ks, k) + CountOf(rest, k) == CountOf(m, k)
      decreases |rest|
    {
      var id :| id in rest;
      var more := ks + [rest[id].kind];
      forall k ensures Count(more, k) + CountOf(rest - {id}, k) == Count(ks, k) + CountOf(rest, k) {
        OneListed(ks, rest, id, k);
      }
      ks, rest := more, rest - {id};
    }
    forall k ensures CountOf(rest, k) == 0 {
      CountZero(rest, k);
    }
  }

  lemma DroppedCount(before: Ids, after: Ids, k: JobKind)
    requires FewerIds(before, after)
    ensures CountOf(before, k) == CountOf(after, k) + CountOf(Among(before, before.Keys - after.Keys), k)
  {
    CountSplit(before, before.Keys - after.Keys, k);
    assert before - (before.Keys - after.Keys) == after;
  }

  lemma FewerSize(before: Ids, after: Ids)
    requires FewerIds(before, after)
    ensures |Among(before, before.Keys - after.Keys)| == |before| - |after|
  {
    var gone := Among(before, before.Keys - after.Keys);
    assert before.Keys == after.Keys + gone.Keys;
    assert |before.Keys| == |before| && |after.Keys| == |after| && |gone.Keys| == |gone|;
  }

  class JobManagerData {
    const jobs: JobTable
    const stage: StageTable
    const ja: JobAllocData
    const stat: JobStatData

    ghost predicate CountersRight()
      reads this, jobs, stat
    {
      forall k :: stat.Num(k) == CountOf(jobs.tId, k)
    }

    /** The counter of waiting jobs is never below their number, and the two stage counters
        together never above the number of ids handed out. */
    ghost predicate StagesRight()
      reads this, jobs, ja, stat
    {
      Waits(jobs.Value()) <= stat.wait && stat.wait + stat.running <= |ja.ids|
    }

    ghost predicate Valid()
      reads this, jobs, ja, stat
    {
      I.TabInv(jobs.Value()) && ja.Valid() && jobs.tId.Keys <= ja.ids && CountersRight() && StagesRight()
    }

    constructor ()
      ensures Valid() && jobs.Value() == S.NEW_TAB
      ensures fresh(jobs) && fresh(stage) && fresh(ja) && fresh(stat)
    {
      jobs := new JobTable();
      stage := new StageTable();
      ja := new JobAllocData();
      stat := new JobStatData();
      new;
      Runs.NewTabInv();
      forall k ensures CountOf(jobs.tId, k) == 0 {
        CountZero(jobs.tId, k);
      }
    }

    /** Take the jobs that have left the table off the counters. */
    method DropKinds(before: Ids)
      requires BasicIds(before) && FewerIds(before, jobs.tId) && forall k :: stat.Num(k) == CountOf(before, k)
      modifies stat
      ensures CountersRight() && stat.wait == old(stat.wait) && stat.running == old(stat.running)
    {
      forall k ensures CountOf(before, k) == CountOf(jobs.tId, k) + CountOf(Among(before, before.Keys - jobs.tId.Keys), k) {
        DroppedCount(before, jobs.tId, k);
      }
      var dels := ListKinds(Among(before, before.Keys - jobs.tId.Keys));
      var panicked := stat.UpdateKinds([], dels);
    }

    // ----- a job ends -----

    method FallbackAll(db: Db, active: Active, us: seq<UnitId>) returns (panicked: bool)
      modifies jobs
      ensures panicked <==> Fallback(old(jobs.Value()), db, active, us).Panic?
      ensures !panicked ==> Fallback(old(jobs.Value()), db, active, us) == Ok(jobs.Value())
    {
      panicked := false;
      var i := 0;
      while i < |us|
        invariant i <= |us|
        invariant Fallback(old(jobs.Value()), db, active, us) == Fallback(jobs.Value(), db, active, us[i..])
      {
        assert us[i..][0] == us[i] && us[i..][1..] == us[i + 1..];
        panicked := jobs.RemoveSuspends(db, us[i], Start, Some(Verify), Dependency, StateOf(active, us[i]));
        if panicked {
          return;
        }
        i := i + 1;
      }
    }

    method FallbackIf(db: Db, active: Active, u: UnitId, runKind: JobKind, result: JobResult) returns (panicked: bool)
      modifies jobs
      ensures panicked <==> FallbackOn(old(jobs.Value()), db, active, u, runKind, result).Panic?
      ensures !panicked ==> FallbackOn(old(jobs.Value()), db, active, u, runKind, result) == Ok(jobs.Value())
    {
      panicked := false;
      if result != Done {
        panicked := FallbackAll(db, active, FallbackUnits(db, u, runKind));
      }
    }

    /** The trigger of a unit that is not paused is finished, with what depends on it. No
        counter of kinds and not the counter of waiting jobs can go below zero; the counter of
        running jobs does exactly when it is zero. */
    method EndTrigger(db: Db, active: Active, u: UnitId, runKind: JobKind, result: JobResult) returns (panicked: bool)
      requires Valid() && (u in jobs.tData ==> !jobs.tData[u].pause)
      modifies jobs, stat
      ensures
        var d := DelTrigger(old(jobs.Value()), db, active, u, runKind, result);
        && (panicked <==> d.Panic? || old(stat.running) < 1)
        && (!panicked ==> Valid() && d.Ok? && d.value.0 == jobs.Value() && stat.running == old(stat.running) - 1)
    {
      ghost var w := Waits(jobs.Value());
      var ids0 := jobs.tId;
      TabBasic(jobs.Value());
      var retry, ids1;
      panicked, retry, ids1 := EndTriggerJobs(db, active, u, runKind, result);
      if !panicked {
        panicked := EndTriggerStat(ids0, retry, ids1, w);
      }
    }

    method EndTriggerJobs(db: Db, active: Active, u: UnitId, runKind: JobKind, result: JobResult)
      returns (panicked: bool, retry: bool, between: Ids)
      requires I.TabInv(jobs.Value()) && (u in jobs.tData ==> !jobs.tData[u].pause)
      modifies jobs
      ensures
        var d := DelTrigger(old(jobs.Value()), db, active, u, runKind, result);
        && (panicked <==> d.Panic?)
        && (!panicked ==> d == Ok((jobs.Value(), retry, between)))
      ensures !panicked ==> I.TabInv(jobs.Value()) && FewerIds(old(jobs.tId), jobs.tId) && FewerIds(between, jobs.tId)
      ensures !panicked ==> Falls(Waits(old(jobs.Value())), Waits(jobs.Value()), retry, between, jobs.tId)
    {
      ghost var t0 := jobs.Value();
      panicked, retry, between := EndTriggerTable(db, active, u, runKind, result);
      if !panicked {
        EndTriggerKeeps(t0, db, active, u, runKind, result);
        EndTriggerFalls(t0, db, active, u, runKind, result);
      }
    }

    method EndTriggerTable(db: Db, active: Active, u: UnitId, runKind: JobKind, result: JobResult)
      returns (panicked: bool, retry: bool, between: Ids)
      modifies jobs
      ensures panicked <==> DelTrigger(old(jobs.Value()), db, active, u, runKind, result).Panic?
      ensures !panicked ==> DelTrigger(old(jobs.Value()), db, active, u, runKind, result) == Ok((jobs.Value(), retry, between))
    {
      var del: Option<Job>;
      panicked, del := jobs.FinishTrigger(db, u, result);
      retry, between := del.None?, jobs.tId;
      if !panicked {
        panicked := FallbackIf(db, active, u, runKind, result);
      }
    }

    /** One more waits for a retrigger, the dependants wait no longer, and one runs less. */
    method EndTriggerStat(before: Ids, retry: bool, between: Ids, ghost w: int) returns (panicked: bool)
      requires BasicIds(before) && FewerIds(before, jobs.tId) && forall k :: stat.Num(k) == CountOf(before, k)
      requires FewerIds(between, jobs.tId) && Falls(w, Waits(jobs.Value()), retry, between, jobs.tId)
      requires ja.Valid() && w <= stat.wait && stat.wait + stat.running <= |ja.ids|
      modifies stat
      ensures panicked <==> old(stat.running) < 1
      ensures !panicked ==> CountersRight() && StagesRight() && stat.running == old(stat.running) - 1
    {
      DropKinds(before);
      FewerSize(between, jobs.tId);
      IdsFew(ja);
      panicked := stat.UpdateWait(if retry then 1 else 0, true);
      panicked := stat.UpdateWait(|between| - |jobs.tId|, false);
      panicked := stat.UpdateRun(1, false);
    }

    /** A suspended job is taken out, with what depends on it if it failed. It aborts only
        with the table. */
    method EndSuspends(db: Db, active: Active, info: JobInfo, result: JobResult) returns (panicked: bool)
      requires Valid()
      modifies jobs, stat
      ensures panicked <==> DelSuspends(old(jobs.Value()), db, active, info, result).Panic?
      ensures !panicked ==> Valid() && DelSuspends(old(jobs.Value()), db, active, info, result) == Ok(jobs.Value())
      ensures !panicked ==> stat.running == old(stat.running)
    {
      ghost var w := Waits(jobs.Value());
      var ids0 := jobs.tId;
      TabBasic(jobs.Value());
      panicked := EndSuspendsJobs(db, active, info, result);
      if !panicked {
        EndSuspendsStat(ids0, w);
      }
    }

    /** All that have left were waiting. */
    method EndSuspendsStat(before: Ids, ghost w: int)
      requires BasicIds(before) && FewerIds(before, jobs.tId) && forall k :: stat.Num(k) == CountOf(before, k)
      requires Falls(w, Waits(jobs.Value()), false, before, jobs.tId) && w <= stat.wait && stat.wait + stat.running <= |ja.ids|
      modifies stat
      ensures CountersRight() && StagesRight() && stat.running == old(stat.running)
    {
      FewerSize(before, jobs.tId);
      DropKinds(before);
      var panicked := stat.UpdateWait(|before| - |jobs.tId|, false);
    }

    method EndSuspendsJobs(db: Db, active: Active, info: JobInfo, result: JobResult) returns (panicked: bool)
      requires I.TabInv(jobs.Value())
      modifies jobs
      ensures panicked <==> DelSuspends(old(jobs.Value()), db, active, info, result).Panic?
      ensures !panicked ==> DelSuspends(old(jobs.Value()), db, active, info, result) == Ok(jobs.Value())
      ensures !panicked ==> I.TabInv(jobs.Value()) && FewerIds(old(jobs.tId), jobs.tId)
      ensures !panicked ==> Falls(Waits(old(jobs.Value())), Waits(jobs.Value()), false, old(jobs.tId), jobs.tId)
    {
      ghost var t0 := jobs.Value();
      panicked := jobs.RemoveSuspends(db, info.unit, info.kind, None, result, StateOf(active, info.unit));
      if !panicked {
        panicked := FallbackIf(db, active, info.unit, info.runKind, result);
      }
      if !panicked {
        EndSuspendsKeeps(t0, db, active, info, result);
      }
    }

    method Remove(db: Db, active: Active, info: JobInfo, result: JobResult) returns (panicked: bool)
      requires Valid() && Removable(jobs.Value(), info)
      modifies jobs, stat
      ensures panicked <==>
        RemoveJob(old(jobs.Value()), db, active, info, result).Panic? ||
        (IsTrigger(old(jobs.Value()), info.id) && old(stat.running) < 1)
      ensures !panicked ==> Valid() && RemoveJob(old(jobs.Value()), db, active, info, result) == Ok(jobs.Value())
      ensures !panicked && old(jobs.readys) == [] ==> jobs.readys == []
    {
      ghost var t0 := jobs.Value();
      if IsTrigger(jobs.Value(), info.id) {
        panicked := EndTrigger(db, active, info.unit, info.runKind, result);
      } else {
        panicked := EndSuspends(db, active, info, result);
      }
      if !panicked {
        RemoveJobLeads(t0, db, active, info, result);
        LeadsKeeps(db, t0, jobs.Value(), false);
      }
    }

    /** A unit reports its new state. */
    method TryFinish(db: Db, active: Active, n: Note) returns (panicked: bool)
      requires Valid()
      modifies jobs, stat
      ensures panicked <==>
        DoTryFinish(old(jobs.Value()), db, active, n).Panic? || (EndsTrigger(old(jobs.Value()), n) && old(stat.running) < 1)
      ensures !panicked ==> Valid() && DoTryFinish(old(jobs.Value()), db, active, n) == Ok(jobs.Value())
      ensures !panicked ==> stat.running == old(stat.running) - if EndsTrigger(old(jobs.Value()), n) then 1 else 0
      ensures !panicked && old(jobs.readys) == [] ==> jobs.readys == []
      ensures !panicked && old(Concerns(jobs.Value(), n)) ==> ReportDone(old(jobs.Value()), jobs.Value(), db, n)
    {
      ghost var t0 := jobs.Value();
      panicked := false;
      if n.unit in jobs.tData && jobs.tData[n.unit].trigger.Some? {
        if jobs.tData[n.unit].pause {
          panicked := Resume(n.unit);
        } else {
          var runKind := jobs.tData[n.unit].trigger.value.runKind;
          var v := ProcessUnit(runKind, n.ns, n.reloadFailure);
          if v.Panic? {
            panicked := true;
          } else if v.value.0.Some? {
            panicked := EndTrigger(db, active, n.unit, runKind, v.value.0.value);
          }
        }
      }
      if !panicked {
        ReportKeeps(t0, db, active, n, jobs.Value());
      }
    }

    method Resume(u: UnitId) returns (panicked: bool)
      requires Valid()
      modifies jobs
      ensures panicked <==> S.ResumeUnit(old(jobs.Value()), u).Panic?
      ensures !panicked ==> Valid() && S.ResumeUnit(old(jobs.Value()), u) == Ok(jobs.Value())
    {
      ghost var t0 := jobs.Value();
      panicked := jobs.ResumeUnit(u);
      if !panicked {
        T.ResumeUnitInv(t0, u);
        ResumedRuns(t0, u);
      }
    }

    // ----- a request -----

    /** Everything the request asks for is staged. */
    method StageRequest(w: World, u: UnitId, kind: JobKind, mode: JobMode, ghost base: set<nat>, ghost all: set<Item>)
      requires stage.Valid(ja, mode, base, all) && stage.items == {} && CheckInput(w, u, kind, mode)
      requires Covers(w, u, kind, all)
      modifies stage, ja
      ensures stage.Valid(ja, mode, base, all)
      ensures Requested(w, u, kind, mode, stage.items)
    {
      ghost var root := Mapped(w.active, u, kind);
      stage.ExpandRoot(w.db, w.active, ja, u, kind, mode, base, all);
      if mode == Isolate {
        ghost var s1 := stage.items;
        stage.AffectIsolate(w.db, w.active, ja, w.registered, w.exempt, mode, {root}, base, all);
        IsolateRequested(w, u, kind, s1, stage.items);
      } else if mode == Trigger {
        TriggerRoot(w, u, kind, stage.items);
        stage.AffectTrigger(w.db, w.active, ja, u, mode, {root}, base, all);
      }
    }

    /** A request is staged, checked, and merged into the live table, or refused, leaving
        the live table as it was. `s` is what was staged, `order` the order in which the
        commit visited the units. It aborts exactly when isolation drops an imminent
        interrupter, or when the counters cannot follow. */
    method Exec(w: World, u: UnitId, kind: JobKind, mode: JobMode)
      returns (panicked: bool, err: Option<JobErrno>, ghost s: S.Stage, ghost order: seq<UnitId>)
      requires Valid() && |ja.ids| + |AllItems(w.db, S.Members(w.registered) + {u})| <= ID_LIMIT
      modifies jobs, stage, ja, stat
      ensures !panicked ==> Valid()
      ensures err == Some(ErrInput) <==> (mode == Isolate && !(kind == Start && u in w.allowIsolate)) || (mode == Trigger && kind != Stop)
      ensures CheckInput(w, u, kind, mode) ==> Requested(w, u, kind, mode, ItemsOf(s.units)) && StageFine(s.units, s.ids, mode)
      ensures err == Some(ErrConflict) <==> CheckInput(w, u, kind, mode) && VerifyStage(s.units, old(jobs.tData), mode) == Ok(false)
      ensures err.Some? ==> !panicked && jobs.Value() == old(jobs.Value()) && CountersRight()
      ensures err.None? ==>
        && M.StageOk(s) && S.Enumerates(order, M.AllUnits(old(jobs.tData), s)) && old(jobs.tId).Keys !! s.ids.Keys
        && (panicked <==> Unfit(old(jobs.tData), s, EnvOf(w, mode), old(stat.wait)))
      ensures err.None? && !panicked ==> exists changes :: Made(old(jobs.Value()), s, EnvOf(w, mode), order, jobs.Value(), changes)
      ensures !panicked && old(jobs.readys) == [] ==> jobs.readys == []
    {
      panicked, err, s, order := false, None, S.Stage(map[], map[]), [];
      if !CheckInput(w, u, kind, mode) {
        err := Some(ErrInput);
        return;
      }
      ghost var base, all := ja.ids, AllItems(w.db, S.Members(w.registered) + {u});
      var ok := Prepare(w, u, kind, mode, base, all);
      s := S.Stage(stage.units, stage.ids);
      if !ok {
        SubsetCard(base, ja.ids);
        err := Some(ErrConflict);
        return;
      }
      ghost var changes;
      panicked, changes, order := CommitRequest(S.Stage(stage.units, stage.ids), EnvOf(w, mode), base);
    }

    /** Stage the request in a cleared table and check it. */
    method Prepare(w: World, u: UnitId, kind: JobKind, mode: JobMode, ghost base: set<nat>, ghost all: set<Item>) returns (ok: bool)
      requires Valid() && CheckInput(w, u, kind, mode) && base == ja.ids
      requires all == AllItems(w.db, S.Members(w.registered) + {u}) && |ja.ids| + |all| <= ID_LIMIT
      modifies stage, ja
      ensures stage.Valid(ja, mode, base, all) && Requested(w, u, kind, mode, ItemsOf(stage.units))
      ensures VerifyStage(stage.units, jobs.tData, mode) == Ok(ok)
      ensures ok ==> M.StageOk(S.Stage(stage.units, stage.ids))
      ensures stage.ids.Keys !! base && stage.ids.Keys + base <= ja.ids
    {
      stage.Clear();
      ClearValid(mode, all);
      AllCovers(w, u, kind);
      StageRequest(w, u, kind, mode, base, all);
      var v := VerifyStage(stage.units, jobs.tData, mode);
      VerifyMeaning(stage.units, jobs.tData, mode);
      ok := v.value;
      if ok {
        VerifiedStageOk(stage.units, stage.ids, jobs.tData, mode);
      }
    }

    lemma ClearValid(mode: JobMode, all: set<Item>)
      requires ja.Valid() && stage.units == map[] && stage.ids == map[] && stage.items == {}
      requires |ja.ids| + |all| <= ID_LIMIT
      ensures stage.Valid(ja, mode, ja.ids, all)
    {
      assert all - {} == all;
      assert ItemsOf(map[]) == {};
    }

    /** The checked stage is committed and counted. No id of it is in use, so the commit is
        never refused. */
    method CommitRequest(s: S.Stage, env: S.CommitEnv, ghost base: set<nat>)
      returns (panicked: bool, ghost changes: S.Changes, ghost order: seq<UnitId>)
      requires I.TabInv(jobs.Value()) && ja.Valid() && CountersRight() && Waits(jobs.Value()) <= stat.wait
      requires jobs.tId.Keys <= base && stat.wait + stat.running <= |base|
      requires M.StageOk(s) && s.ids.Keys !! base && s.ids.Keys + base <= ja.ids
      modifies jobs, stage, stat
      ensures !panicked ==> Valid()
      ensures S.Enumerates(order, M.AllUnits(old(jobs.tData), s))
      ensures panicked <==> Unfit(old(jobs.tData), s, env, old(stat.wait))
      ensures !panicked ==> Made(old(jobs.Value()), s, env, order, jobs.Value(), changes)
      ensures !panicked && old(jobs.readys) == [] ==> jobs.readys == []
    {
      ghost var t0 := jobs.Value();
      var ids0 := jobs.tId;
      var ch;
      panicked, ch, order := CommitTable(s, env);
      changes := ch;
      if !panicked {
        stage.Clear();
        panicked := CountRequest(ids0, ch, t0, s, env, order, base);
      }
    }

    method CountRequest(before: Ids, changes: S.Changes, ghost t: S.Tab, ghost s: S.Stage, ghost env: S.CommitEnv,
                        ghost order: seq<UnitId>, ghost base: set<nat>)
      returns (panicked: bool)
      requires I.TabInv(t) && M.StageOk(s) && S.Enumerates(order, M.AllUnits(t.recs, s)) && Made(t, s, env, order, jobs.Value(), changes)
      requires ja.Valid() && before == t.ids && before.Keys <= base && s.ids.Keys !! base && s.ids.Keys + base <= ja.ids
      requires Waits(t) <= stat.wait && stat.wait + stat.running <= |base| && forall k :: stat.Num(k) == CountOf(before, k)
      modifies stat
      ensures panicked <==> !CountersFollow(t.recs, s, env, old(stat.wait))
      ensures !panicked ==> Valid()
    {
      CommitFacts(t, s, env, order, jobs.Value(), changes, base, ja.ids, stat.wait);
      panicked := CountCommit(before, changes, base, Waits(t));
    }

    method CommitTable(s: S.Stage, env: S.CommitEnv) returns (panicked: bool, changes: S.Changes, ghost order: seq<UnitId>)
      requires I.TabInv(jobs.Value()) && M.StageOk(s) && jobs.tId.Keys !! s.ids.Keys
      modifies jobs
      ensures S.Enumerates(order, M.AllUnits(old(jobs.tData), s))
      ensures panicked <==> M.IsolationAborts(old(jobs.tData), s, env)
      ensures !panicked ==> Made(old(jobs.Value()), s, env, order, jobs.Value(), changes)
      ensures !panicked && old(jobs.readys) == [] ==> jobs.readys == []
    {
      ghost var t0 := jobs.Value();
      var committed;
      panicked, committed, changes, order := jobs.Commit(s, env);
      C.CommitInv(t0, s, env, order);
      if !panicked {
        CommitReadys(t0, s, env, order);
      }
    }

    /** The deletions are taken off before the additions are added. */
    method CountCommit(before: Ids, changes: S.Changes, ghost base: set<nat>, ghost w: int) returns (panicked: bool)
      requires Countable(before, jobs.tId, changes, base, ja.ids) && forall k :: stat.Num(k) == CountOf(before, k)
      requires ja.Valid() && Waits(jobs.Value()) == w + |changes.adds| - |changes.dels|
      requires w <= stat.wait && stat.wait + stat.running <= |base|
      modifies stat
      ensures panicked <==> !CountsFollow(before, changes.dels, old(stat.wait))
      ensures !panicked ==> CountersRight() && StagesRight()
    {
      IdsFew(ja);
      var adds := ListKinds(changes.adds);
      var dels := ListKinds(changes.dels);
      panicked := stat.UpdateKinds(adds, dels);
      if !panicked {
        panicked := CountWaits(|adds|, |dels|);
      }
    }

    method CountWaits(adds: nat, dels: nat) returns (panicked: bool)
      requires stat.wait + adds < USIZE
      modifies stat
      ensures panicked <==> dels > old(stat.wait)
      ensures forall k :: stat.Num(k) == old(stat.Num(k))
      ensures !panicked ==> stat.wait == old(stat.wait) - dels + adds && stat.running == old(stat.running)
    {
      panicked := stat.UpdateWait(dels, false);
      if !panicked {
        panicked := stat.UpdateWait(adds, true);
      }
    }

    /** All jobs of a unit leave with it. The counter of running jobs is lowered when the
        unit has no trigger, and not when it has one; so removing an idle unit while the
        counter is zero aborts. Outside a run of the manager no batch is being worked off:
        every request, report and removal leaves an empty one empty, and so does a run. */
    method RemoveUnit(u: UnitId) returns (panicked: bool)
      requires Valid() && u !in jobs.readys
      modifies jobs, stat
      ensures jobs.Value() == S.RemoveUnit(old(jobs.Value()), u)
      ensures !panicked ==> Valid()
      ensures
        var (idle, held) := Leaving(old(jobs.tData), u);
        && (panicked <==> idle && old(stat.running) < 1)
        && (!panicked ==> stat.running == old(stat.running) - (if idle then 1 else 0) && stat.wait == old(stat.wait) - held)
    {
      ghost var t0 := jobs.Value();
      var ids0 := jobs.tId;
      TabBasic(t0);
      var (idle, held) := Leaving(jobs.tData, u);
      T.RemoveUnitInv(t0, u);
      RemoveFewer(t0, u);
      LeavingWaits(t0, u);
      jobs.RemoveUnit(u);
      WaitsNonNegative(jobs.Value());
      panicked := CountRemoved(ids0, idle, held);
    }

    method CountRemoved(before: Ids, idle: bool, held: nat) returns (panicked: bool)
      requires BasicIds(before) && FewerIds(before, jobs.tId) && forall k :: stat.Num(k) == CountOf(before, k)
      requires held <= stat.wait
      modifies stat
      ensures CountersRight()
      ensures panicked <==> idle && old(stat.running) < 1
      ensures !panicked ==> stat.running == old(stat.running) - (if idle then 1 else 0) && stat.wait == old(stat.wait) - held
    {
      DropKinds(before);
      panicked := stat.UpdateRun(if idle then 1 else 0, false);
      if !panicked {
        panicked := stat.UpdateWait(held, false);
      }
    }

    // ----- the loop -----

    /** One round: try the next unit; if its job was handed over, count it, and let it
        finish if it has already been reported or answered as over. The table becomes what
        `RoundTab` says; beyond the aborts of the table there is only one: two triggers end in
        a round that begins with the counter of running jobs at zero. */
    method Round(db: Db, active: Active, a: Answer) returns (panicked: bool, more: bool, ghost order: seq<UnitId>)
      requires Valid()
      modifies jobs, stat
      ensures S.AllSound(old(jobs.tData)) && S.Enumerates(order, old(jobs.tReady))
      ensures RoundTab(old(jobs.Value()), db, active, order, a).Panic? ==> panicked
      ensures panicked && old(stat.running) > 0 ==> RoundTab(old(jobs.Value()), db, active, order, a).Panic?
      ensures !panicked ==> Valid() && RoundTab(old(jobs.Value()), db, active, order, a) == Ok((jobs.Value(), more))
      ensures !panicked ==> Leads(db, old(jobs.Value()), jobs.Value(), true)
      ensures !panicked && more ==> Less(old(jobs.tData), jobs.tData)
      ensures !panicked && !more ==> S.ReadyUnits(jobs.tData) == {} && jobs.readys == []
    {
      ghost var t0 := jobs.Value();
      var tried;
      panicked, tried, order := TryNext(db, a);
      more := false;
      if !panicked {
        panicked, more := FinishRound(db, active, tried, a.note, t0);
      }
    }

    method FinishRound(db: Db, active: Active, tried: S.Tried, note: Option<Note>, ghost t0: S.Tab) returns (panicked: bool, more: bool)
      requires Valid() && Tried1(db, t0, jobs.Value(), tried) && (tried.Triggered? ==> stat.running >= 1)
      modifies jobs, stat
      ensures EndRound(old(jobs.Value()), db, active, tried, note).Panic? ==> panicked
      ensures panicked && old(stat.running) > 1 ==> EndRound(old(jobs.Value()), db, active, tried, note).Panic?
      ensures panicked ==> tried.Triggered?
      ensures !panicked ==> Valid() && EndRound(old(jobs.Value()), db, active, tried, note) == Ok((jobs.Value(), more))
      ensures !panicked ==> Leads(db, t0, jobs.Value(), true)
      ensures !panicked && more ==> Less(t0.recs, jobs.tData)
      ensures !panicked && !more ==> S.ReadyUnits(jobs.tData) == {} && jobs.readys == []
    {
      panicked, more := false, !tried.Nothing?;
      if tried.Triggered? {
        ghost var t1 := jobs.Value();
        panicked := Settle(db, active, tried.unit, tried.out, note);
        if !panicked {
          SettledRound(db, t0, t1, jobs.Value(), tried);
        }
      }
    }

    method TryNext(db: Db, a: Answer) returns (panicked: bool, tried: S.Tried, ghost order: seq<UnitId>)
      requires Valid()
      modifies jobs, stat
      ensures S.AllSound(old(jobs.tData)) && S.Enumerates(order, old(jobs.tReady))
      ensures panicked <==> S.TryTrigger(old(jobs.Value()), db, order, a.act, a.us).Panic?
      ensures !panicked ==> S.TryTrigger(old(jobs.Value()), db, order, a.act, a.us) == Ok((jobs.Value(), tried))
      ensures !panicked ==> Valid() && Tried1(db, old(jobs.Value()), jobs.Value(), tried)
      ensures !panicked ==> stat.running == old(stat.running) + if tried.Triggered? then 1 else 0
    {
      ghost var t0 := jobs.Value();
      var ids0 := jobs.tId;
      I.CoreSound(t0, {});
      TabBasic(t0);
      panicked, tried, order := jobs.TryTrigger(db, a.act, a.us);
      if !panicked {
        TryKeeps(t0, db, order, a.act, a.us);
        TriedWaits(t0, db, order, a.act, a.us);
        IdsFew(ja);
        DropKinds(ids0);
        if tried.Triggered? {
          CountTriggered();
        }
      }
    }

    /** There is a waiting job to be counted as running. */
    method CountTriggered()
      requires stat.wait >= 1 && stat.running + 1 < USIZE
      modifies stat
      ensures forall k :: stat.Num(k) == old(stat.Num(k))
      ensures stat.wait == old(stat.wait) - 1 && stat.running == old(stat.running) + 1
    {
      var panicked := stat.UpdateWait(1, false);
      panicked := stat.UpdateRun(1, true);
    }

    /** The report, if there is one, comes first; then the answer. */
    method Settle(db: Db, active: Active, u: UnitId, out: RunOutcome, note: Option<Note>) returns (panicked: bool)
      requires Valid() && u in jobs.tData && jobs.tData[u].trigger.Some? && (out.Finished? ==> !jobs.tData[u].pause)
      requires stat.running >= 1
      modifies jobs, stat
      ensures SettleTab(old(jobs.Value()), db, active, u, out, note).Panic? ==> panicked
      ensures panicked && old(stat.running) > 1 ==> SettleTab(old(jobs.Value()), db, active, u, out, note).Panic?
      ensures !panicked ==> Valid() && SettleTab(old(jobs.Value()), db, active, u, out, note) == Ok(jobs.Value())
      ensures !panicked ==> Leads(db, old(jobs.Value()), jobs.Value(), false)
    {
      ghost var t0 := jobs.Value();
      var j := jobs.tData[u].trigger.value;
      var info := JobInfo(j.id, u, j.kind, j.runKind);
      panicked := false;
      LeadsSelf(db, t0, false);
      if note.Some? {
        panicked := TryFinish(db, active, note.value);
        if panicked {
          return;
        }
        DoTryFinishLeads(t0, db, active, note.value);
      }
      if out.Finished? {
        StillRemovable(t0, jobs.Value(), db, info);
        panicked := Remove(db, active, info, out.result);
      }
      if !panicked {
        SettleLeads(t0, db, active, u, out, note);
      }
    }

    /** The run of the manager, whatever the units answer and report, comes to an end: every
        round starts a phase of a job, or takes a unit out of the ready ones. When it ends
        without aborting nothing is ready. The steps taken lose no wakeup: with a mirrored
        ordering a table without lost wakeups is left without lost wakeups; and if moreover
        the ordering has no cycle and nothing runs, no job is left undone but nops. */
    method Run(db: Db, active: Active, answers: nat -> Answer) returns (panicked: bool)
      requires Valid()
      modifies jobs, stat
      ensures !panicked ==> Valid() && Leads(db, old(jobs.Value()), jobs.Value(), true)
      ensures !panicked ==> S.ReadyUnits(jobs.tData) == {} && jobs.readys == [] && jobs.tReady == {}
      ensures !panicked && P.WellOrdered(db) && old(P.Wakeful(jobs.Value(), db)) ==> P.Wakeful(jobs.Value(), db)
      ensures !panicked && P.WellOrdered(db) && old(P.Wakeful(jobs.Value(), db)) && P.Acyclic(db) && P.NothingRuns(jobs.tData) ==>
        P.BusyUnits(jobs.tData) == {}
    {
      LeadsSelf(db, jobs.Value(), true);
      var i, more := 0, true;
      panicked := false;
      while more
        invariant !panicked && Valid() && Leads(db, old(jobs.Value()), jobs.Value(), true)
        invariant !more ==> S.ReadyUnits(jobs.tData) == {} && jobs.readys == []
        decreases Work(jobs.tData), |S.ReadyUnits(jobs.tData)|, more
      {
        ghost var t1 := jobs.Value();
        ghost var order;
        panicked, more, order := Round(db, active, answers(i));
        if panicked {
          return;
        }
        LeadsTrans(db, old(jobs.Value()), t1, jobs.Value(), true);
        LeadsKeeps(db, t1, jobs.Value(), true);
        i := i + 1;
      }
      NothingReady(jobs.Value());
      RunWakes(db, old(jobs.Value()), jobs.Value());
    }
  }

  /** What a report leaves: no batch is begun, and what is told from phase and state. */
  lemma ReportKeeps(t: S.Tab, db: Db, active: Active, n: Note, t': S.Tab)
    requires I.TabInv(t) && DoTryFinish(t, db, active, n) == Ok(t')
    ensures t.ix.readys == [] ==> t'.ix.readys == []
    ensures Concerns(t, n) ==> ReportDone(t, t', db, n)
  {
    DoTryFinishLeads(t, db, active, n);
    LeadsKeeps(db, t, t', false);
    if Concerns(t, n) {
      ReportOutcome(t, db, active, n);
    }
  }

  /** The round of a hand-over, once it is settled. */
  lemma SettledRound(db: Db, t: S.Tab, t1: S.Tab, t2: S.Tab, tried: S.Tried)
    requires I.TabInv(t1) && Tried1(db, t, t1, tried) && tried.Triggered? && Leads(db, t1, t2, false)
    ensures Leads(db, t, t2, true) && Less(t.recs, t2.recs)
  {
    LeadsMore(db, t1, t2);
    LeadsTrans(db, t, t1, t2, true);
    LeadsKeeps(db, t1, t2, true);
  }

  /** What a run that came to rest leaves. */
  lemma RunWakes(db: Db, t: S.Tab, t': S.Tab)
    requires I.TabInv(t) && Leads(db, t, t', true) && S.ReadyUnits(t'.recs) == {}
    ensures P.WellOrdered(db) && P.Wakeful(t, db) ==> P.Wakeful(t', db)
    ensures P.WellOrdered(db) && P.Wakeful(t, db) && P.Acyclic(db) && P.NothingRuns(t'.recs) ==> P.BusyUnits(t'.recs) == {}
  {
    LeadsKeeps(db, t, t', true);
    if P.WellOrdered(db) && P.Wakeful(t, db) {
      LeadsWakes(db, t, t', true);
      if P.Acyclic(db) && P.NothingRuns(t'.recs) {
        P.NothingLeftUndone(t', db);
      }
    }
  }

  /** Is the unit without a trigger, and how many jobs has it suspended? */
  function Leaving(recs: S.Recs, u: UnitId): (bool, nat) {
    if u in recs then (recs[u].trigger.None?, |recs[u].suspends|) else (true, 0)
  }

  lemma LeavingWaits(t: S.Tab, u: UnitId)
    requires I.TabInv(t)
    ensures Waits(S.RemoveUnit(t, u)) <= Waits(t) - Leaving(t.recs, u).1
  {
    if u in t.recs {
      RemovedUnitWaits(t, u);
    }
  }

  lemma RemoveFewer(t: S.Tab, u: UnitId)
    ensures FewerIds(t.ids, S.RemoveUnit(t, u).ids)
  {
  }

  lemma NothingReady(t: S.Tab)
    requires I.TabInv(t) && S.ReadyUnits(t.recs) == {}
    ensures t.ix.tReady == {}
  {
    assert forall u :: u in t.ix.tReady ==> u in S.ReadyUnits(t.recs);
  }

  /** There is less work, or as much and fewer ready units. */
  ghost predicate Less(recs: S.Recs, recs': S.Recs) {
    Work(recs') < Work(recs) || (Work(recs') == Work(recs) && |S.ReadyUnits(recs')| < |S.ReadyUnits(recs)|)
  }

  /** What one try does: the invariant holds, no job is added, and there is less to do; a
      unit that was triggered has a trigger, and is not paused unless it is to be tried again. */
  ghost predicate Tried1(db: Db, t: S.Tab, t': S.Tab, tried: S.Tried) {
    && I.TabInv(t') && FewerIds(t.ids, t'.ids) && Leads(db, t, t', true)
    && (tried.Nothing? ==> S.ReadyUnits(t'.recs) == {} && t'.ix.readys == [])
    && TriedLess(t.recs, t'.recs, tried)
    && (tried.Triggered? ==>
          && tried.unit in t'.recs && t'.recs[tried.unit].trigger.Some?
          && (tried.out.Finished? ==> !t'.recs[tried.unit].pause))
  }

  lemma TryKeeps(t: S.Tab, db: Db, order: seq<UnitId>, act: Option<ActionError>, us: ActiveState)
    requires I.TabInv(t) && S.AllSound(t.recs) && S.Enumerates(order, t.ix.tReady) && S.TryTrigger(t, db, order, act, us).Ok?
    ensures Tried1(db, t, S.TryTrigger(t, db, order, act, us).value.0, S.TryTrigger(t, db, order, act, us).value.1)
  {
    var (t', tried) := S.TryTrigger(t, db, order, act, us).value;
    LeadsStep(db, t, Runs.DoTry(order, act, us), t', true);
    LeadsKeeps(db, t, t', true);
    TryWork(t, db, order, act, us);
    if T.Next(t, order).None? {
      T.TryNothing(t, db, order, act, us);
    } else {
      T.TrySomething(t, db, order, act, us);
    }
  }

  lemma TriedWaits(t: S.Tab, db: Db, order: seq<UnitId>, act: Option<ActionError>, us: ActiveState)
    requires I.TabInv(t) && S.AllSound(t.recs) && S.Enumerates(order, t.ix.tReady) && S.TryTrigger(t, db, order, act, us).Ok?
    ensures
      var (t', tried) := S.TryTrigger(t, db, order, act, us).value;
      Waits(t') >= 0 && Waits(t') <= Waits(t) - if tried.Triggered? then 1 else 0
  {
    TryKeeps(t, db, order, act, us);
    WaitsNonNegative(S.TryTrigger(t, db, order, act, us).value.0);
    if S.TryTrigger(t, db, order, act, us).value.1.Triggered? {
      TriggeredWaits(t, db, order, act, us);
    } else {
      UntriggeredWaits(t, db, order, act, us);
    }
  }

  datatype JobErrno = ErrInput | ErrConflict

  /** What a request reads besides the tables: the dependencies, the active states, the
      registered units in the order they are listed, the units exempt from isolation and
      those that may be isolated. */
  datatype World = World(db: Db, active: Active, registered: seq<UnitId>, exempt: set<UnitId>, allowIsolate: set<UnitId>)

  predicate CheckInput(w: World, u: UnitId, kind: JobKind, mode: JobMode) {
    (mode.Isolate? ==> kind.Start? && u in w.allowIsolate) && (mode.Trigger? ==> kind.Stop?)
  }

  /** What has to be staged: the least set closed under the dependencies that contains the
      request and, for the modes that affect others, the stops these modes add. */
  ghost predicate Requested(w: World, u: UnitId, kind: JobKind, mode: JobMode, items: set<Item>) {
    var root := Mapped(w.active, u, kind);
    if mode.IgnoreDependencies? || mode.IgnoreRequirements? then items == {root}
    else if mode.Isolate? then
      exists s1 :: IsolatedFrom(w, root, s1, items)
    else if mode.Trigger? then LeastOver(w.db, w.active, {root} + StopsFor(Gets(w.db, u, AtomTriggeredBy)), items)
    else LeastOver(w.db, w.active, {root}, items)
  }

  ghost predicate IsolatedFrom(w: World, root: Item, s1: set<Item>, s2: set<Item>) {
    LeastOver(w.db, w.active, {root}, s1) && LeastOver(w.db, w.active, {root} + StopsOf(w.registered, s1, w.exempt), s2)
  }

  function EnvOf(w: World, mode: JobMode): S.CommitEnv {
    S.CommitEnv(mode.Isolate? || mode.Flush?, w.exempt, w.active)
  }

  /** Can the counters follow a commit? A new job that is swallowed at once is taken off
      before it is added; so every kind needs as many other jobs, kept suspended or being
      triggers, and the waiting jobs must be at least as many as are deleted in all. */
  predicate CountersFollow(recs: S.Recs, s: S.Stage, env: S.CommitEnv, wait: nat) {
    (forall k :: |Only(BornDead(recs, s, env), k)| <= |Only(LiveKept(recs, s, env), k)| + |Only(TriggerItems(recs), k)|) &&
    |BornDead(recs, s, env)| + |LiveGone(recs, s, env)| <= wait
  }

  /** The requests that abort: isolation drops a job about to interrupt, or the counters
      cannot follow. */
  predicate Unfit(recs: S.Recs, s: S.Stage, env: S.CommitEnv, wait: nat) {
    M.IsolationAborts(recs, s, env) || !CountersFollow(recs, s, env, wait)
  }

  /** The same in terms of the counters. */
  ghost predicate CountsFollow(before: Ids, dels: Ids, wait: nat) {
    (forall k :: CountOf(dels, k) <= CountOf(before, k)) && |dels| <= wait
  }

  lemma Follows(t: S.Tab, s: S.Stage, env: S.CommitEnv, order: seq<UnitId>, wait: nat)
    requires I.TabInv(t) && M.StageOk(s) && S.Enumerates(order, M.AllUnits(t.recs, s))
    requires S.Commit(t, s, env, order).Ok? && S.Commit(t, s, env, order).value.Committed?
    ensures CountsFollow(t.ids, S.Commit(t, s, env, order).value.changes.dels, wait) <==> CountersFollow(t.recs, s, env, wait)
  {
    var dels := S.Commit(t, s, env, order).value.changes.dels;
    forall k
      ensures CountOf(dels, k) <= CountOf(t.ids, k) <==>
        |Only(BornDead(t.recs, s, env), k)| <= |Only(LiveKept(t.recs, s, env), k)| + |Only(TriggerItems(t.recs), k)|
    {
      KindUnderflowIff(t, s, env, order, k);
    }
    DeletedSize(t, s, env, order);
  }

  /** Every id added was handed out for this request. */
  lemma RoomForAdds(base: set<nat>, staged: Ids, adds: Ids, used: set<nat>)
    requires staged.Keys !! base && staged.Keys + base <= used && adds.Keys <= staged.Keys
    ensures |base| + |adds| <= |used|
  {
    SubsetCard(base + adds.Keys, used);
    assert |adds.Keys| == |adds|;
    assert |base + adds.Keys| == |base| + |adds.Keys|;
  }

  lemma IdsFew(ja: JobAllocData)
    requires ja.Valid()
    ensures |ja.ids| <= ID_LIMIT
  {
    BelowMeaning(ID_LIMIT);
    SubsetCard(ja.ids, Below(ID_LIMIT));
  }

  /** What counting a commit needs to know of it. */
  ghost predicate Countable(before: Ids, after: Ids, ch: S.Changes, base: set<nat>, used: set<nat>) {
    && BasicIds(ch.adds) && BasicIds(ch.dels) && |base| + |ch.adds| <= |used|
    && (forall k :: CountOf(before, k) + CountOf(ch.adds, k) < USIZE)
    && (forall k :: CountOf(after, k) == CountOf(before, k) + CountOf(ch.adds, k) - CountOf(ch.dels, k))
  }

  lemma CommitCountable(t: S.Tab, s: S.Stage, env: S.CommitEnv, order: seq<UnitId>, base: set<nat>, used: set<nat>)
    requires I.TabInv(t) && M.StageOk(s) && S.Enumerates(order, M.AllUnits(t.recs, s))
    requires S.Commit(t, s, env, order).Ok? && S.Commit(t, s, env, order).value.Committed?
    requires t.ids.Keys <= base && s.ids.Keys !! base && s.ids.Keys + base <= used && IdsInRange(used)
    ensures
      var (t', ch) := (S.Commit(t, s, env, order).value.tab, S.Commit(t, s, env, order).value.changes);
      Countable(t.ids, t'.ids, ch, base, used) && Waits(t') == Waits(t) + |ch.adds| - |ch.dels|
  {
    var (t', ch) := (S.Commit(t, s, env, order).value.tab, S.Commit(t, s, env, order).value.changes);
    TabBasic(t);
    StagedBasic(s);
    ChangesBasic(t, s, env, order, ch);
    RoomForAdds(base, s.ids, ch.adds, used);
    FewIds(used, t.ids, ch.adds);
    CommittedWaits(t, s, env, order);
    forall k ensures CountOf(t'.ids, k) == CountOf(t.ids, k) + CountOf(ch.adds, k) - CountOf(ch.dels, k) {
      CommitCounts(t, s, env, order, k);
    }
  }

  /** The commit has been carried out, with these changes: every unit has what it makes of it. */
  ghost predicate Made(t: S.Tab, s: S.Stage, env: S.CommitEnv, order: seq<UnitId>, t': S.Tab, ch: S.Changes) {
    S.Commit(t, s, env, order) == Ok(S.Committed(t', ch)) && I.TabInv(t') && M.CommittedTo(t.recs, t'.recs, s, env)
  }

  lemma CommitFacts(t: S.Tab, s: S.Stage, env: S.CommitEnv, order: seq<UnitId>, t': S.Tab, ch: S.Changes,
                    base: set<nat>, used: set<nat>, wait: nat)
    requires I.TabInv(t) && M.StageOk(s) && S.Enumerates(order, M.AllUnits(t.recs, s)) && Made(t, s, env, order, t', ch)
    requires t.ids.Keys <= base && s.ids.Keys !! base && s.ids.Keys + base <= used && IdsInRange(used)
    ensures I.TabInv(t') && t'.ids.Keys <= used
    ensures Countable(t.ids, t'.ids, ch, base, used) && Waits(t') == Waits(t) + |ch.adds| - |ch.dels|
    ensures CountsFollow(t.ids, ch.dels, wait) <==> CountersFollow(t.recs, s, env, wait)
  {
    CommitCountable(t, s, env, order, base, used);
    Follows(t, s, env, order, wait);
    CommittedKeys(t, s, env, order);
  }

  lemma CommittedKeys(t: S.Tab, s: S.Stage, env: S.CommitEnv, order: seq<UnitId>)
    requires S.Commit(t, s, env, order).Ok? && S.Commit(t, s, env, order).value.Committed?
    ensures S.Commit(t, s, env, order).value.tab.ids.Keys <= t.ids.Keys + s.ids.Keys
  {
  }

  /** From `w` waiting jobs to `w'`: one more for a retrigger, those given up less. */
  ghost predicate Falls(w: int, w': int, retry: bool, between: Ids, ids: Ids) {
    0 <= w' <= w + (if retry then 1 else 0) - (|between| - |ids|)
  }

  lemma EndTriggerFalls(t: S.Tab, db: Db, active: Active, u: UnitId, runKind: JobKind, result: JobResult)
    requires I.TabInv(t) && DelTrigger(t, db, active, u, runKind, result).Ok? && (u in t.recs ==> !t.recs[u].pause)
    ensures
      var (t', retry, between) := DelTrigger(t, db, active, u, runKind, result).value;
      Falls(Waits(t), Waits(t'), retry, between, t'.ids)
  {
    EndTriggerKeeps(t, db, active, u, runKind, result);
    DelTriggerWaits(t, db, active, u, runKind, result);
    WaitsNonNegative(DelTrigger(t, db, active, u, runKind, result).value.0);
  }

  lemma EndSuspendsKeeps(t: S.Tab, db: Db, active: Active, info: JobInfo, result: JobResult)
    requires I.TabInv(t) && DelSuspends(t, db, active, info, result).Ok?
    ensures
      var t' := DelSuspends(t, db, active, info, result).value;
      I.TabInv(t') && FewerIds(t.ids, t'.ids) && Falls(Waits(t), Waits(t'), false, t.ids, t'.ids)
  {
    DelSuspendsLeads(t, db, active, info, result);
    LeadsKeeps(db, t, DelSuspends(t, db, active, info, result).value, false);
    DelSuspendsWaits(t, db, active, info, result);
    WaitsNonNegative(DelSuspends(t, db, active, info, result).value);
  }

  lemma StagedBasic(s: S.Stage)
    requires M.StageOk(s)
    ensures BasicIds(s.ids)
  {
    forall id | id in s.ids ensures IsBasic(s.ids[id].kind) {
      assert I.Refers(s.ids, id, s.ids[id].unit, s.ids[id].kind);
      assert V.StagedJobs(s.units[s.ids[id].unit]);
    }
  }

  lemma ChangesFrom(t: S.Tab, s: S.Stage, env: S.CommitEnv, order: seq<UnitId>)
    requires S.Commit(t, s, env, order).Ok? && S.Commit(t, s, env, order).value.Committed?
    ensures
      var ch := S.Commit(t, s, env, order).value.changes;
      ch.adds == S.AddedIds(t.recs, s, env) && FewerIds(t.ids + ch.adds, ch.dels)
  {
  }

  lemma AddsBasic(recs: S.Recs, s: S.Stage, env: S.CommitEnv)
    requires BasicIds(s.ids)
    ensures BasicIds(S.AddedIds(recs, s, env)) && S.AddedIds(recs, s, env).Keys <= s.ids.Keys
  {
  }

  lemma ChangesBasic(t: S.Tab, s: S.Stage, env: S.CommitEnv, order: seq<UnitId>, ch: S.Changes)
    requires BasicIds(t.ids) && BasicIds(s.ids)
    requires S.Commit(t, s, env, order).Ok? && S.Commit(t, s, env, order).value.Committed?
    requires ch == S.Commit(t, s, env, order).value.changes
    ensures BasicIds(ch.adds) && BasicIds(ch.dels) && ch.adds.Keys <= s.ids.Keys
  {
    ChangesFrom(t, s, env, order);
    AddsBasic(t.recs, s, env);
  }

  /** There are at most 2^32 ids, far fewer than a counter can count. */
  lemma FewIds(used: set<nat>, ids: Ids, adds: Ids)
    requires IdsInRange(used) && ids.Keys <= used && adds.Keys <= used
    ensures forall k :: CountOf(ids, k) + CountOf(adds, k) < USIZE
  {
    BelowMeaning(ID_LIMIT);
    forall k ensures CountOf(ids, k) + CountOf(adds, k) < USIZE {
      SubsetCard(OfKind(ids, k), Below(ID_LIMIT));
      SubsetCard(OfKind(adds, k), Below(ID_LIMIT));
    }
  }

  /** Everything that may be staged for the request is in `all`. */
  ghost predicate Covers(w: World, u: UnitId, kind: JobKind, all: set<Item>) {
    && Closed(w.db, w.active, all) && Mapped(w.active, u, kind) in all
    && (forall i :: 0 <= i < |w.registered| ==> Item(w.registered[i], Stop) in all)
    && (var us := Gets(w.db, u, AtomTriggeredBy); forall i :: 0 <= i < |us| ==> Item(us[i], Stop) in all)
  }

  lemma AllCovers(w: World, u: UnitId, kind: JobKind)
    ensures Covers(w, u, kind, AllItems(w.db, S.Members(w.registered) + {u}))
  {
    AllItemsClosed(w.db, w.active, S.Members(w.registered) + {u});
    MappedBasic(w.active, u, kind);
    var us := Gets(w.db, u, AtomTriggeredBy);
    forall i | 0 <= i < |us| ensures us[i] in Mentioned(w.db) {
      assert (u, AtomTriggeredBy) in w.db && us[i] in w.db[(u, AtomTriggeredBy)];
    }
  }

  lemma IsolateRequested(w: World, u: UnitId, kind: JobKind, s1: set<Item>, s2: set<Item>)
    requires IsolatedFrom(w, Mapped(w.active, u, kind), s1, s2)
    ensures Requested(w, u, kind, Isolate, s2)
  {
  }

  lemma TriggerRoot(w: World, u: UnitId, kind: JobKind, items: set<Item>)
    requires kind.Stop? && LeastOver(w.db, w.active, {Mapped(w.active, u, kind)}, items)
    ensures Item(u, Stop) in items
  {
    assert Mapped(w.active, u, kind) in {Mapped(w.active, u, kind)};
  }

  lemma EndTriggerKeeps(t: S.Tab, db: Db, active: Active, u: UnitId, runKind: JobKind, result: JobResult)
    requires I.TabInv(t) && DelTrigger(t, db, active, u, runKind, result).Ok? && (u in t.recs ==> !t.recs[u].pause)
    ensures
      var (t', _, between) := DelTrigger(t, db, active, u, runKind, result).value;
      I.TabInv(t') && FewerIds(t.ids, t'.ids) && FewerIds(between, t'.ids)
  {
    var t1 := S.FinishTrigger(t, db, u, result).value.0;
    var t' := DelTrigger(t, db, active, u, runKind, result).value.0;
    DelTriggerLeads(t, db, active, u, runKind, result);
    LeadsKeeps(db, t, t', false);
    T.FinishTriggerInv(t, db, u, result);
    FallbackOnLeads(t1, db, active, u, runKind, result);
    LeadsKeeps(db, t1, t', false);
  }
}
