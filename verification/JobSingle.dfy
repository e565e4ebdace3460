/** Units that hold one job each: what a commit, a try and a report make of them. The runs of
    `JobExamples` are made of such steps. */
module JobSingle {
  import opened Outcomes
  import opened UnitBase
  import opened JobEntry
  import opened JobExpansion
  import opened JobTransaction
  import opened JobTableState
  import opened JobTableInvariant
  import opened JobTableSteps
  import opened JobTableCommit
  import opened JobCommitBatch
  import opened JobTableRuns
  import B = JobTableBatch
  import F = JobFinish
  import G = JobStages
  import C = JobTableCommitIds
  import R = JobUnitRecord
  import V = JobUnitInvariant

  /** A job that can be started or stopped by its unit. */
  predicate Plain(k: JobKind) {
    k.Start? || k.Stop? || k.Reload? || k.Restart?
  }

  /** One job of kind `k` is suspended, bound to the ordering. */
  predicate OneJob(s: R.Suspends, k: JobKind) {
    s.Keys == {k} && !s[k].ignoreOrder
  }

  /** A unit that has one job suspended and runs none. */
  predicate Pends(r: R.Rec, k: JobKind, paused: bool) {
    V.Settled(r) && r.trigger.None? && !r.retrigger && r.pause == paused && OneJob(r.suspends, k)
  }

  /** A unit that runs a job in its first phase and has none suspended. */
  predicate Works(r: R.Rec, k: JobKind) {
    && V.Settled(r) && r.suspends == map[] && !r.pause && !r.retrigger && r.trigger.Some?
    && r.trigger.value.kind == k && r.trigger.value.runKind == RunKindNew(k)
    && r.trigger.value.stage.Running? && !r.trigger.value.ignoreOrder
  }

  /** A unit that runs a job and has one suspended that is to interrupt it. */
  predicate Interrupts(r: R.Rec, k: JobKind, run: JobKind) {
    && V.Settled(r) && !r.pause && !r.retrigger && r.trigger.Some? && r.trigger.value.kind == run
    && r.trigger.value.stage.Running? && OneJob(r.suspends, k)
  }

  lemma OneQueued(s: R.Suspends, k: JobKind)
    requires s.Keys == {k} && Plain(k)
    ensures R.QueueOf(s) == [k]
  {
  }

  lemma PendsReady(r: R.Rec, k: JobKind, paused: bool)
    requires Pends(r, k, paused) && Plain(k)
    ensures R.QueueSound(r) && r.sq == [k] && r.ready == !paused && r.order && !r.dirty && !IsEmptyRec(r)
    ensures !paused ==> R.NextJob(r) == Ok(r.suspends[k]) && V.QueueDue(r) && !r.interrupt
  {
    V.SettledQueueSound(r);
    OneQueued(r.suspends, k);
  }

  lemma WorksIdle(r: R.Rec, k: JobKind)
    requires Works(r, k)
    ensures !r.ready && !r.interrupt && r.sq == [] && r.order && !IsEmptyRec(r)
  {
    assert R.QueueOf(map[]) == [];
  }

  // ----- committing -----

  /** The stage holds one job for each of these units, bound to the ordering. */
  ghost predicate Stages(s: Stage, jobs: map<UnitId, JobKind>) {
    StageOk(s) && s.units.Keys == jobs.Keys && forall u :: u in jobs ==> OneJob(s.units[u], jobs[u])
  }

  function JobAt(u: UnitId, k: JobKind, mode: JobMode, base: nat): R.Suspends {
    map[k := NewJob(base + u, u, k, mode)]
  }

  lemma JobAtMeans(u: UnitId, k: JobKind, mode: JobMode, base: nat)
    requires IsBasic(k) && !k.Nop? && !mode.IgnoreDependencies?
    ensures V.StagedJobs(JobAt(u, k, mode, base)) && OneJob(JobAt(u, k, mode, base), k)
    ensures JobAt(u, k, mode, base)[k].id == base + u
  {
  }

  lemma Consistent1(s: R.Suspends, k: JobKind)
    requires s.Keys == {k}
    ensures R.Consistent(s) && s != map[]
  {
    assert k in s;
  }

  function Shifted(us: set<UnitId>, base: nat): set<nat> {
    set u | u in us :: base + u
  }

  lemma ShiftedBack(us: set<UnitId>, base: nat, id: nat)
    ensures id in Shifted(us, base) <==> id >= base && id - base in us
  {
    assert id >= base && id - base in us ==> base + (id - base) in Shifted(us, base);
  }

  /** Such stages exist, with whatever ids are free. */
  lemma StageMade(jobs: map<UnitId, JobKind>, mode: JobMode, base: nat) returns (s: Stage)
    requires !mode.IgnoreDependencies? && forall u :: u in jobs ==> IsBasic(jobs[u]) && !jobs[u].Nop?
    ensures Stages(s, jobs) && forall id :: id in s.ids ==> id >= base
  {
    var units := map u | u in jobs :: JobAt(u, jobs[u], mode, base);
    var ids := map id | id in Shifted(jobs.Keys, base) && id >= base && id - base in jobs :: JobRef(id - base, jobs[id - base]);
    s := Stage(units, ids);
    forall id: nat ensures id in ids <==> id >= base && id - base in jobs {
      ShiftedBack(jobs.Keys, base, id);
    }
    MadeFrom(s, jobs, mode, base);
  }

  lemma MadeFrom(s: Stage, jobs: map<UnitId, JobKind>, mode: JobMode, base: nat)
    requires !mode.IgnoreDependencies? && forall u :: u in jobs ==> IsBasic(jobs[u]) && !jobs[u].Nop?
    requires s.units.Keys == jobs.Keys && forall u :: u in jobs ==> s.units[u] == JobAt(u, jobs[u], mode, base)
    requires forall id: nat :: id in s.ids <==> id >= base && id - base in jobs
    requires forall id :: id in s.ids ==> s.ids[id] == JobRef(id - base, jobs[id - base])
    ensures Stages(s, jobs)
  {
    forall u | u in jobs
      ensures V.StagedJobs(s.units[u]) && R.Consistent(s.units[u]) && s.units[u] != map[] && OneJob(s.units[u], jobs[u])
    {
      JobAtMeans(u, jobs[u], mode, base);
      Consistent1(s.units[u], jobs[u]);
    }
    forall u, k, id: nat ensures Refers(s.ids, id, u, k) <==> u in s.units && k in s.units[u] && s.units[u][k].id == id {
      MadeRefers(s, jobs, mode, base, u, k, id);
    }
  }

  lemma MadeRefers(s: Stage, jobs: map<UnitId, JobKind>, mode: JobMode, base: nat, u: UnitId, k: JobKind, id: nat)
    requires s.units.Keys == jobs.Keys && (id in s.ids <==> id >= base && id - base in jobs) && !mode.IgnoreDependencies?
    requires u in jobs ==> IsBasic(jobs[u]) && !jobs[u].Nop? && s.units[u] == JobAt(u, jobs[u], mode, base)
    requires id in s.ids ==> s.ids[id] == JobRef(id - base, jobs[id - base])
    ensures Refers(s.ids, id, u, k) <==> u in s.units && k in s.units[u] && s.units[u][k].id == id
  {
    if u in jobs {
      JobAtMeans(u, jobs[u], mode, base);
    }
  }

  lemma NormalOne(o: R.Suspends, k: JobKind, us: ActiveState)
    requires o.Keys == {k}
    ensures R.NormalForm(o, us) == o
  {
    assert k == Restart ==> o - {Start, Reload} == o;
  }

  lemma UnionOne(o: R.Suspends, k: JobKind)
    requires OneJob(o, k)
    ensures OneJob(R.Union(map[], o), k)
  {
    assert R.Union(map[], o).Keys == {k};
  }

  /** Nothing is left of what was suspended: there was nothing, or the staged job conflicts
      with it. */
  predicate Replaces(was: R.Suspends, k: JobKind) {
    was == map[] ||
    (k.Stop? && exists l :: l in was && !l.Stop? && !l.Nop?) ||
    (!k.Stop? && !k.Nop? && Stop in was)
  }

  lemma ReplacesAll(was: R.Suspends, o: R.Suspends, k: JobKind)
    requires R.Consistent(was) && OneJob(o, k) && Replaces(was, k)
    ensures V.MergeBase(was, o) == map[] && R.Consistent(o)
  {
    R.ConflictWithMeaning(was, o);
    if k != Stop && k != Nop {
      assert R.HasOther(o);
    }
  }

  lemma SuspendsOne(recs: Recs, s: Stage, env: CommitEnv, jobs: map<UnitId, JobKind>, u: UnitId)
    requires CanCommit(recs, s, env, u) && Stages(s, jobs) && u in jobs && Replaces(OldRec(recs, u).suspends, jobs[u])
    ensures OneJob(CommittedSuspends(recs, s, env, u), jobs[u]) && Disturbs(recs, s, env, u)
  {
    var k, o := jobs[u], s.units[u];
    ReplacesAll(OldRec(recs, u).suspends, o, k);
    UnionOne(o, k);
    NormalOne(R.Union(map[], o), k, ActiveOf(env, u));
  }

  /** A unit gets its one staged job in the place of what it had suspended. */
  lemma CommittedOne(recs: Recs, recs': Recs, s: Stage, env: CommitEnv, jobs: map<UnitId, JobKind>, u: UnitId)
    requires AllCanCommit(recs, s, env) && CommittedTo(recs, recs', s, env) && Stages(s, jobs) && u in jobs
    requires Replaces(OldRec(recs, u).suspends, jobs[u])
    ensures u in recs' && V.Settled(recs'[u]) && OneJob(recs'[u].suspends, jobs[u])
    ensures
      var (r, was) := (recs'[u], OldRec(recs, u));
      r.trigger == was.trigger && r.retrigger == was.retrigger && r.pause == was.pause
    ensures Disturbs(recs, s, env, u)
  {
    assert CanCommit(recs, s, env, u);
    BlankSettled();
    SuspendsOne(recs, s, env, jobs, u);
    CommittedHas(recs, recs', s, env, u, jobs[u]);
  }

  /** A unit that has a job suspended after the commit is in the table. */
  lemma CommittedHas(recs: Recs, recs': Recs, s: Stage, env: CommitEnv, u: UnitId, k: JobKind)
    requires CanCommit(recs, s, env, u) && CommittedTo(recs, recs', s, env) && k in CommittedSuspends(recs, s, env, u)
    ensures u in recs' && V.Settled(recs'[u]) && recs'[u].suspends == CommittedSuspends(recs, s, env, u)
    ensures
      var (r, was) := (recs'[u], OldRec(recs, u));
      r.trigger == was.trigger && r.retrigger == was.retrigger && r.pause == was.pause
  {
    CommittedRecMeaning(recs, s, env, u);
    PlaceOf(recs, recs', s, env, u);
  }

  /** A pending stop gives way to a start, and the other way round; the unit stays paused if it
      was. */
  lemma CommittedPends(recs: Recs, recs': Recs, s: Stage, env: CommitEnv, jobs: map<UnitId, JobKind>, u: UnitId, k: JobKind, paused: bool)
    requires AllCanCommit(recs, s, env) && CommittedTo(recs, recs', s, env) && Stages(s, jobs) && u in jobs
    requires u in recs && Pends(recs[u], k, paused) && ((k.Stop? && jobs[u].Start?) || (k.Start? && jobs[u].Stop?))
    ensures u in recs' && Pends(recs'[u], jobs[u], paused)
  {
    assert k in recs[u].suspends;
    CommittedOne(recs, recs', s, env, jobs, u);
  }

  /** A unit the commit does not concern keeps its record. */
  lemma CommittedNone(recs: Recs, recs': Recs, s: Stage, env: CommitEnv, u: UnitId)
    requires AllCanCommit(recs, s, env) && CommittedTo(recs, recs', s, env)
    requires u in recs && u !in s.units && !Isolated(s, env, u)
    ensures u in recs' && recs'[u] == recs[u]
  {
    assert CanCommit(recs, s, env, u);
    PlaceOf(recs, recs', s, env, u);
  }

  /** A commit with fresh ids that does not isolate always goes through. */
  lemma CommitGoes(t: Tab, db: Db, s: Stage, env: CommitEnv, order: seq<UnitId>) returns (t': Tab)
    requires TabInv(t) && StageOk(s) && Enumerates(order, AllUnits(t.recs, s)) && t.ids.Keys !! s.ids.Keys && !env.isolate
    ensures Takes(t, db, DoCommit(s, env, order), t') && TabInv(t')
    ensures AllCanCommit(t.recs, s, env) && CommittedTo(t.recs, t'.recs, s, env)
    ensures t'.ids.Keys <= t.ids.Keys + s.ids.Keys
    ensures t'.ix.readys == if PutsBack(t.recs, s, env) then [] else t.ix.readys
  {
    CoreSound(t, {});
    C.CommitInv(t, s, env, order);
    C.AllReady(t, s, env);
    CommitReadys(t, s, env, order);
    t' := Commit(t, s, env, order).value.tab;
    CommitIsStep(t, db, s, env, order, t');
    CommittedKeys(t, s, env, order);
  }

  lemma CommitIsStep(t: Tab, db: Db, s: Stage, env: CommitEnv, order: seq<UnitId>, t': Tab)
    requires AllSound(t.recs) && StageOk(s) && Enumerates(order, AllUnits(t.recs, s))
    requires Commit(t, s, env, order).Ok? && Commit(t, s, env, order).value.Committed?
    requires t' == Commit(t, s, env, order).value.tab
    ensures Takes(t, db, DoCommit(s, env, order), t')
  {
  }

  lemma CommittedKeys(t: Tab, s: Stage, env: CommitEnv, order: seq<UnitId>)
    requires Commit(t, s, env, order).Ok? && Commit(t, s, env, order).value.Committed?
    ensures Commit(t, s, env, order).value.tab.ids.Keys <= t.ids.Keys + s.ids.Keys
  {
  }

  /** A table without jobs, like a new one. */
  ghost predicate Idle(t: Tab) {
    TabInv(t) && t.recs == map[] && t.ids == map[] && t.ix.readys == []
  }

  lemma IdleNew()
    ensures Idle(NEW_TAB)
  {
    NewTabInv();
  }

  /** Every unit has its one job pending and is ready, and no batch is under way. */
  ghost predicate AllPend(t: Tab, jobs: map<UnitId, JobKind>) {
    TabInv(t) && t.recs.Keys == jobs.Keys == t.ix.tReady && t.ix.readys == [] && forall u :: u in jobs ==> Pends(t.recs[u], jobs[u], false)
  }

  lemma CommitIntoIdle(t: Tab, db: Db, s: Stage, env: CommitEnv, order: seq<UnitId>, jobs: map<UnitId, JobKind>) returns (t': Tab)
    requires Idle(t) && Stages(s, jobs) && Enumerates(order, jobs.Keys) && !env.isolate && forall u :: u in jobs ==> Plain(jobs[u])
    ensures Takes(t, db, DoCommit(s, env, order), t') && AllPend(t', jobs) && t'.ids.Keys <= s.ids.Keys
  {
    assert AllUnits(t.recs, s) == jobs.Keys;
    t' := CommitGoes(t, db, s, env, order);
    IdleCommitted(t, t', s, env, jobs);
  }

  predicate PendsIn(recs: Recs, u: UnitId, k: JobKind) {
    u in recs && Pends(recs[u], k, false) && recs[u].ready
  }

  lemma IdleCommitted(t: Tab, t': Tab, s: Stage, env: CommitEnv, jobs: map<UnitId, JobKind>)
    requires Stages(s, jobs) && AllCanCommit(map[], s, env) && CommittedTo(map[], t'.recs, s, env)
    requires TabInv(t') && t'.ix.readys == [] && forall u :: u in jobs ==> Plain(jobs[u])
    ensures AllPend(t', jobs)
  {
    forall u | u in jobs ensures PendsIn(t'.recs, u, jobs[u]) {
      CommittedNew(map[], t'.recs, s, env, jobs, u);
    }
    assert t'.recs.Keys <= jobs.Keys;
    AllPending(t', jobs);
  }

  lemma AllPending(t: Tab, jobs: map<UnitId, JobKind>)
    requires TabInv(t) && t.ix.readys == [] && t.recs.Keys <= jobs.Keys && forall u :: u in jobs ==> PendsIn(t.recs, u, jobs[u])
    ensures AllPend(t, jobs)
  {
    AllInReady(t);
    assert ReadyUnits(t.recs) == jobs.Keys;
  }

  /** A unit that held nothing has its one staged job pending. */
  lemma CommittedNew(recs: Recs, recs': Recs, s: Stage, env: CommitEnv, jobs: map<UnitId, JobKind>, u: UnitId)
    requires AllCanCommit(recs, s, env) && CommittedTo(recs, recs', s, env) && Stages(s, jobs) && u in jobs && u !in recs && Plain(jobs[u])
    ensures u in recs' && Pends(recs'[u], jobs[u], false) && recs'[u].ready && Disturbs(recs, s, env, u)
  {
    CommittedOne(recs, recs', s, env, jobs, u);
    PendsReady(recs'[u], jobs[u], false);
  }

  /** With no batch under way the ready table holds the ready units. */
  lemma AllInReady(t: Tab)
    requires TabInv(t) && t.ix.readys == []
    ensures t.ix.tReady == ReadyUnits(t.recs)
  {
    assert forall u :: u in ReadyUnits(t.recs) <==> u in t.ix.tReady;
  }

  // ----- trying -----

  /** What is tried next when no batch is under way: the last of the ready ones. */
  lemma NextOfReady(t: Tab, us: seq<UnitId>, u: UnitId)
    requires t.ix.readys == [] && Distinct(us + [u])
    ensures Next(t, us + [u]) == Some((u, t.(ix := Index({}, us, t.ix.up - Members(us + [u])))))
  {
    var order := us + [u];
    assert order[..|order| - 1] == us && order[|order| - 1] == u;
  }

  lemma NextOfBatch(t: Tab, us: seq<UnitId>, u: UnitId, order: seq<UnitId>)
    requires t.ix.readys == us + [u]
    ensures Next(t, order) == Some((u, t.(ix := t.ix.(readys := us))))
  {
    assert t.ix.readys[..|us|] == us;
  }

  /** The one job of the unit is not handed over: another has to go first. */
  lemma TryPauses(t: Tab, db: Db, order: seq<UnitId>, u: UnitId, k: JobKind) returns (t': Tab)
    requires TabInv(t) && Enumerates(order, t.ix.tReady) && Next(t, order).Some? && Next(t, order).value.0 == u
    requires u in t.recs && Pends(t.recs[u], k, false) && Plain(k) && !MayGo(t.recs, db, u, t.recs[u].suspends[k])
    ensures Takes(t, db, DoTry(order, None, UnitInActive), t') && TabInv(t')
    ensures t'.recs == t.recs[u := t.recs[u].(pause := true, ready := false)] && Pends(t'.recs[u], k, true)
    ensures t'.ix == Next(t, order).value.1.ix && t'.ids == t.ids
  {
    CoreSound(t, {});
    PendsReady(t.recs[u], k, false);
    TryTriggerAborts(t, db, order, None, UnitInActive);
    TrySomething(t, db, order, None, UnitInActive);
    TriedIx(t, db, order, None, UnitInActive);
    t' := TryTrigger(t, db, order, None, UnitInActive).value.0;
    assert V.Settled(t'.recs[u]);
  }

  lemma TriedIx(t: Tab, db: Db, order: seq<UnitId>, act: Option<ActionError>, us: ActiveState)
    requires TabInv(t) && AllSound(t.recs) && Enumerates(order, t.ix.tReady) && Next(t, order).Some?
    requires TryTrigger(t, db, order, act, us).Ok?
    ensures
      var (t', tried) := TryTrigger(t, db, order, act, us).value;
      t'.ix == Next(t, order).value.1.ix && t'.ids.Keys <= t.ids.Keys && (tried.Paused? ==> t'.ids == t.ids)
  {
    B.TriedOnly(t, db, order, act, us);
    G.TriedIds(t, db, order, act, us);
  }

  /** What the answer of a unit's action means for the job. */
  function AnswerOf(act: Option<ActionError>): RunOutcome {
    if act.None? then Launched else ErrToOutcome(act.value)
  }

  /** The one job of the unit is handed over; `act` is the answer of its action. */
  lemma TryHands(t: Tab, db: Db, order: seq<UnitId>, u: UnitId, k: JobKind, act: Option<ActionError>) returns (t': Tab)
    requires TabInv(t) && Enumerates(order, t.ix.tReady) && Next(t, order).Some? && Next(t, order).value.0 == u
    requires u in t.recs && Pends(t.recs[u], k, false) && Plain(k) && MayGo(t.recs, db, u, t.recs[u].suspends[k])
    requires act != Some(EAgain)
    ensures Takes(t, db, DoTry(order, act, UnitInActive), t') && TabInv(t')
    ensures TryTrigger(t, db, order, act, UnitInActive) == Ok((t', Triggered(u, AnswerOf(act), None)))
    ensures u in t'.recs && t'.recs == t.recs[u := t'.recs[u]] && Works(t'.recs[u], k)
    ensures t'.ix == Next(t, order).value.1.ix && t'.ids.Keys <= t.ids.Keys
  {
    CoreSound(t, {});
    var out, merged;
    t', out, merged := TryGoes(t, db, order, u, k, act);
    HandedOut(t, db, order, u, k, act);
    HandedWorks(t.recs[u], t'.recs[u], k, out, merged, act);
    TriedIx(t, db, order, act, UnitInActive);
    TryIsStep(t, db, order, act, UnitInActive, t');
  }

  lemma TryIsStep(t: Tab, db: Db, order: seq<UnitId>, act: Option<ActionError>, us: ActiveState, t': Tab)
    requires AllSound(t.recs) && Enumerates(order, t.ix.tReady) && TryTrigger(t, db, order, act, us).Ok?
    requires t' == TryTrigger(t, db, order, act, us).value.0
    ensures Takes(t, db, DoTry(order, act, us), t')
  {
  }

  lemma TryGoes(t: Tab, db: Db, order: seq<UnitId>, u: UnitId, k: JobKind, act: Option<ActionError>)
    returns (t': Tab, out: RunOutcome, merged: Option<Job>)
    requires TabInv(t) && AllSound(t.recs) && Enumerates(order, t.ix.tReady) && Next(t, order).Some? && Next(t, order).value.0 == u
    requires u in t.recs && Pends(t.recs[u], k, false) && Plain(k) && MayGo(t.recs, db, u, t.recs[u].suspends[k])
    ensures TryTrigger(t, db, order, act, UnitInActive) == Ok((t', Triggered(u, out, merged)))
    ensures TabInv(t') && u in t'.recs && t'.recs == t.recs[u := t'.recs[u]] && Handed(t.recs[u], t'.recs[u], out, merged)
    ensures V.Settled(t'.recs[u])
  {
    PendsReady(t.recs[u], k, false);
    TryTriggerAborts(t, db, order, act, UnitInActive);
    TrySomething(t, db, order, act, UnitInActive);
    var tried := TryTrigger(t, db, order, act, UnitInActive).value.1;
    t', out, merged := TryTrigger(t, db, order, act, UnitInActive).value.0, tried.out, tried.merged;
  }

  /** The answer that comes with a hand-over. */
  lemma HandedOut(t: Tab, db: Db, order: seq<UnitId>, u: UnitId, k: JobKind, act: Option<ActionError>)
    requires TabInv(t) && AllSound(t.recs) && Enumerates(order, t.ix.tReady) && Next(t, order).Some? && Next(t, order).value.0 == u
    requires u in t.recs && Pends(t.recs[u], k, false) && Plain(k)
    requires TryTrigger(t, db, order, act, UnitInActive).Ok? && TryTrigger(t, db, order, act, UnitInActive).value.1.Triggered?
    ensures TryTrigger(t, db, order, act, UnitInActive).value.1.out == AnswerOf(act)
  {
    PendsReady(t.recs[u], k, false);
    V.HandOver(t.recs[u], act, UnitInActive);
  }

  lemma HandedWorks(r: R.Rec, r': R.Rec, k: JobKind, out: RunOutcome, merged: Option<Job>, act: Option<ActionError>)
    requires Pends(r, k, false) && Plain(k) && Handed(r, r', out, merged) && V.Settled(r')
    requires out == AnswerOf(act) && act != Some(EAgain)
    ensures Works(r', k) && merged == None
  {
    PendsReady(r, k, false);
    assert r.suspends - {k} == map[];
  }

  /** The last of the order is handed its job first; the others stay in the batch. */
  lemma FirstHanded(t: Tab, db: Db, order: seq<UnitId>, us: seq<UnitId>, u: UnitId, jobs: map<UnitId, JobKind>, act: Option<ActionError>)
    returns (t': Tab)
    requires AllPend(t, jobs) && order == us + [u] && Enumerates(order, jobs.Keys) && u in jobs && Plain(jobs[u]) && act != Some(EAgain)
    requires MayGo(t.recs, db, u, t.recs[u].suspends[jobs[u]]) && AllSound(t.recs)
    ensures Takes(t, db, DoTry(order, act, UnitInActive), t')
    ensures TryTrigger(t, db, order, act, UnitInActive) == Ok((t', Triggered(u, AnswerOf(act), None)))
    ensures TabInv(t') && t'.ix.readys == us && u in t'.recs && Works(t'.recs[u], jobs[u])
    ensures t'.recs == t.recs[u := t'.recs[u]] && t'.ids.Keys <= t.ids.Keys
  {
    NextOfReady(t, us, u);
    t' := TryHands(t, db, order, u, jobs[u], act);
  }

  /** Unit `u` works on its one job, and no other unit holds any. */
  ghost predicate OneWorks(t: Tab, u: UnitId, k: JobKind) {
    TabInv(t) && t.recs.Keys == {u} && Works(t.recs[u], k) && t.ix.readys == []
  }

  /** A job committed into an idle table for a unit that is not ordered, and handed over. */
  lemma OneHanded(t: Tab, db: Db, s: Stage, env: CommitEnv, jobs: map<UnitId, JobKind>, u: UnitId, order: seq<UnitId>, act: Option<ActionError>)
    returns (t1: Tab, t2: Tab, step: Step)
    requires Idle(t) && Stages(s, jobs) && !env.isolate && jobs.Keys == {u} && Plain(jobs[u]) && order == [] + [u]
    requires Unordered(db, u) && act != Some(EAgain)
    ensures step == DoTry(order, act, UnitInActive) && Takes(t, db, DoCommit(s, env, order), t1) && Takes(t1, db, step, t2)
    ensures HandsOver(t1, db, step) && OneWorks(t2, u, jobs[u]) && t2.ids.Keys <= s.ids.Keys
  {
    assert Members(order) == {u};
    t1 := CommitIntoIdle(t, db, s, env, order, jobs);
    t2, step := OneTried(t1, db, jobs, u, order, act);
  }

  lemma OneTried(t: Tab, db: Db, jobs: map<UnitId, JobKind>, u: UnitId, order: seq<UnitId>, act: Option<ActionError>) returns (t': Tab, step: Step)
    requires AllPend(t, jobs) && jobs.Keys == {u} && Plain(jobs[u]) && order == [] + [u] && Unordered(db, u) && act != Some(EAgain)
    ensures step == DoTry(order, act, UnitInActive) && Takes(t, db, step, t')
    ensures HandsOver(t, db, step) && OneWorks(t', u, jobs[u]) && t'.ids.Keys <= t.ids.Keys
  {
    assert Members(order) == {u};
    CoreSound(t, {});
    UnorderedGoes(t.recs, db, u, t.recs[u].suspends[jobs[u]]);
    t' := FirstHanded(t, db, order, [], u, jobs, act);
    step := TriedByHand(t, db, order, act, t', u);
    PutAlone(t.recs, u, t'.recs[u]);
  }

  lemma PutAlone(recs: Recs, u: UnitId, r: R.Rec)
    requires recs.Keys == {u}
    ensures recs[u := r].Keys == {u}
  {
  }

  lemma TriedByHand(t: Tab, db: Db, order: seq<UnitId>, act: Option<ActionError>, t': Tab, u: UnitId) returns (step: Step)
    requires AllSound(t.recs) && TryTrigger(t, db, order, act, UnitInActive) == Ok((t', Triggered(u, AnswerOf(act), None)))
    ensures step == DoTry(order, act, UnitInActive) && HandsOver(t, db, step)
  {
    step := DoTry(order, act, UnitInActive);
  }

  /** The unit is not ordered against any other. */
  predicate Unordered(db: Db, u: UnitId) {
    Gets(db, u, AtomAfter) == [] && Gets(db, u, AtomBefore) == []
  }

  lemma UnorderedGoes(recs: Recs, db: Db, u: UnitId, j: Job)
    requires Unordered(db, u)
    ensures MayGo(recs, db, u, j)
  {
  }

  /** A try that hands a job over. */
  predicate HandsOver(t: Tab, db: Db, step: Step) {
    step.DoTry? && AllSound(t.recs) &&
    var e := TryTrigger(t, db, step.order, step.act, step.us);
    e.Ok? && e.value.1.Triggered?
  }

  lemma OthersPend(recs: Recs, recs': Recs, jobs: map<UnitId, JobKind>, u: UnitId, v: UnitId)
    requires v in jobs && v != u && v in recs && Pends(recs[v], jobs[v], false) && u in recs' && recs' == recs[u := recs'[u]]
    ensures v in recs' && Pends(recs'[v], jobs[v], false)
  {
  }

  /** A round that hands a job over and settles it. */
  lemma RoundOf(t: Tab, db: Db, active: Active, order: seq<UnitId>, a: F.Answer, t1: Tab, u: UnitId, out: RunOutcome, merged: Option<Job>, t2: Tab)
    requires AllSound(t.recs) && TryTrigger(t, db, order, a.act, a.us) == Ok((t1, Triggered(u, out, merged)))
    requires u in t1.recs && t1.recs[u].trigger.Some? && F.SettleTab(t1, db, active, u, out, a.note) == Ok(t2)
    ensures F.RoundTab(t, db, active, order, a) == Ok((t2, true))
  {
  }

  lemma TwoOf(u: UnitId, v: UnitId, order: seq<UnitId>)
    requires u != v && order == [u] + [v]
    ensures Enumerates(order, {u, v})
  {
    assert Members(order) == {u, v};
  }

  // ----- runs put together -----

  /** There is a run from one table to the other. */
  ghost predicate Arrives(db: Db, t: Tab, t': Tab) {
    exists ts, steps :: IsRun(db, ts, steps) && ts[0] == t && ts[|ts| - 1] == t'
  }

  lemma ArrivesStep(db: Db, t: Tab, step: Step, t': Tab)
    requires Takes(t, db, step, t')
    ensures Arrives(db, t, t')
  {
    var ts := [t, t'];
    assert IsRun(db, ts, [step]) && ts[0] == t && ts[|ts| - 1] == t';
  }

  lemma ArrivesTrans(db: Db, t1: Tab, t2: Tab, t3: Tab)
    requires Arrives(db, t1, t2) && Arrives(db, t2, t3)
    ensures Arrives(db, t1, t3)
  {
    var ts1, steps1 :| IsRun(db, ts1, steps1) && ts1[0] == t1 && ts1[|ts1| - 1] == t2;
    var ts2, steps2 :| IsRun(db, ts2, steps2) && ts2[0] == t2 && ts2[|ts2| - 1] == t3;
    F.JoinRuns(db, ts1, steps1, ts2, steps2);
    var ts := ts1 + ts2[1..];
    assert IsRun(db, ts, steps1 + steps2) && ts[0] == t1 && ts[|ts| - 1] == t3;
  }

  lemma RunPauses(t: Tab, db: Db, order: seq<UnitId>, u: UnitId, k: JobKind) returns (t': Tab)
    requires TabInv(t) && Enumerates(order, t.ix.tReady) && Next(t, order).Some? && Next(t, order).value.0 == u
    requires u in t.recs && Pends(t.recs[u], k, false) && Plain(k) && !MayGo(t.recs, db, u, t.recs[u].suspends[k])
    ensures Arrives(db, t, t') && TabInv(t') && t'.ix == Next(t, order).value.1.ix && t'.ids == t.ids
    ensures u in t'.recs && t'.recs == t.recs[u := t'.recs[u]] && Pends(t'.recs[u], k, true)
  {
    t' := TryPauses(t, db, order, u, k);
    ArrivesStep(db, t, DoTry(order, None, UnitInActive), t');
  }

  lemma RunHands(t: Tab, db: Db, order: seq<UnitId>, u: UnitId, k: JobKind, act: Option<ActionError>) returns (t': Tab)
    requires TabInv(t) && Enumerates(order, t.ix.tReady) && Next(t, order).Some? && Next(t, order).value.0 == u
    requires u in t.recs && Pends(t.recs[u], k, false) && Plain(k) && MayGo(t.recs, db, u, t.recs[u].suspends[k])
    requires act != Some(EAgain)
    ensures Arrives(db, t, t') && TabInv(t') && t'.ix == Next(t, order).value.1.ix && t'.ids.Keys <= t.ids.Keys
    ensures u in t'.recs && t'.recs == t.recs[u := t'.recs[u]] && Works(t'.recs[u], k)
  {
    t' := TryHands(t, db, order, u, k, act);
    ArrivesStep(db, t, DoTry(order, act, UnitInActive), t');
  }

  lemma RunCommits(t: Tab, db: Db, s: Stage, env: CommitEnv, order: seq<UnitId>) returns (t': Tab)
    requires TabInv(t) && StageOk(s) && Enumerates(order, AllUnits(t.recs, s)) && t.ids.Keys !! s.ids.Keys && !env.isolate
    ensures Arrives(db, t, t') && TabInv(t') && t'.ids.Keys <= t.ids.Keys + s.ids.Keys
    ensures AllCanCommit(t.recs, s, env) && CommittedTo(t.recs, t'.recs, s, env)
    ensures t'.ix.readys == if PutsBack(t.recs, s, env) then [] else t.ix.readys
  {
    t' := CommitGoes(t, db, s, env, order);
    ArrivesStep(db, t, DoCommit(s, env, order), t');
  }

  lemma RunCommitsIdle(t: Tab, db: Db, s: Stage, env: CommitEnv, order: seq<UnitId>, jobs: map<UnitId, JobKind>) returns (t': Tab)
    requires Idle(t) && Stages(s, jobs) && Enumerates(order, jobs.Keys) && !env.isolate && forall u :: u in jobs ==> Plain(jobs[u])
    ensures Arrives(db, t, t') && AllPend(t', jobs) && t'.ids.Keys <= s.ids.Keys
  {
    t' := CommitIntoIdle(t, db, s, env, order, jobs);
    ArrivesStep(db, t, DoCommit(s, env, order), t');
  }

  /** While a batch is under way nothing else is ready, so the order of the ready units is
      empty. */
  lemma NextOfLast(t: Tab, us: seq<UnitId>, u: UnitId, order: seq<UnitId>)
    requires TabInv(t) && t.ix.readys == us + [u] && order == []
    ensures Enumerates(order, t.ix.tReady) && Next(t, order) == Some((u, t.(ix := t.ix.(readys := us))))
  {
    NextOfBatch(t, us, u, order);
    assert t.ix.tReady == {} == Members(order);
  }
}
