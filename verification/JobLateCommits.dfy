/** Commits that come late: while a batch is being worked off, or while units are paused. */
module JobLateCommits {
  import opened Outcomes
  import opened UnitBase
  import opened JobEntry
  import opened JobExpansion
  import opened JobTableState
  import opened JobTableInvariant
  import opened JobTableSteps
  import opened JobTableCommit
  import opened JobCommitBatch
  import opened JobTableBatch
  import opened JobTableRuns
  import opened JobFinish
  import opened JobSingle
  import R = JobUnitRecord
  import V = JobUnitInvariant

  // ----- into a batch -----

  lemma InterruptsReady(r: R.Rec, k: JobKind, run: JobKind)
    requires Interrupts(r, k, run) && Plain(k)
    ensures r.ready <==> IsStopping(k)
    ensures r.sq == [k] && r.order
  {
    OneQueued(r.suspends, k);
  }

  /** A stage with one job of one unit disturbs no other unit. */
  lemma OnlyOneDisturbed(recs: Recs, recs': Recs, s: Stage, env: CommitEnv, jobs: map<UnitId, JobKind>, u: UnitId)
    requires AllCanCommit(recs, s, env) && CommittedTo(recs, recs', s, env) && Stages(s, jobs) && jobs.Keys == {u} && !env.isolate
    requires u in recs && u !in ReadyUnits(recs')
    ensures !PutsBack(recs, s, env)
  {
    CommittedReady(recs, recs', s, env, u);
    forall v | v in AllUnits(recs, s) ensures !Back(recs, s, env, v) {
      assert Disturbs(recs, s, env, v) ==> v == u;
    }
  }

  /** The running start of a unit in the batch is about to be interrupted by a stop; a start
      takes the place of the stop. */
  lemma BeginsAgain(t: Tab, t': Tab, s: Stage, env: CommitEnv, jobs: map<UnitId, JobKind>, u: UnitId)
    requires AllCanCommit(t.recs, s, env) && CommittedTo(t.recs, t'.recs, s, env) && Stages(s, jobs) && jobs.Keys == {u} && jobs[u] == Start
    requires u in t.recs && Interrupts(t.recs[u], Stop, Start) && !env.isolate
    ensures u in t'.recs && u !in ReadyUnits(t'.recs) && !PutsBack(t.recs, s, env)
  {
    CommittedOne(t.recs, t'.recs, s, env, jobs, u);
    InterruptsReady(t'.recs[u], Start, Start);
    OnlyOneDisturbed(t.recs, t'.recs, s, env, jobs, u);
  }

  /** Such a commit leaves the unit in the batch, no longer ready. */
  lemma CommitStrands(t: Tab, db: Db, s: Stage, env: CommitEnv, visit: seq<UnitId>, jobs: map<UnitId, JobKind>, u: UnitId) returns (t': Tab)
    requires TabInv(t) && t.ix.readys == [u] && u in t.recs && Interrupts(t.recs[u], Stop, Start)
    requires Stages(s, jobs) && jobs.Keys == {u} && jobs[u] == Start && !env.isolate
    requires Enumerates(visit, AllUnits(t.recs, s)) && t.ids.Keys !! s.ids.Keys
    ensures Takes(t, db, DoCommit(s, env, visit), t') && TabInv(t') && t'.ix.readys == [u] && !BatchOk(t')
  {
    t' := CommitGoes(t, db, s, env, visit);
    BeginsAgain(t, t', s, env, jobs, u);
  }

  /** Unit `u` sits in the batch and is no longer ready. */
  ghost predicate LeftInBatch(t: Tab, u: UnitId) {
    TabInv(t) && !BatchOk(t) && t.ix.readys == [u]
  }

  /** That is fatal when the unit's turn comes. */
  lemma LeftIsFatal(t: Tab, db: Db, active: Active, order: seq<UnitId>, a: Answer, u: UnitId)
    requires LeftInBatch(t, u) && AllSound(t.recs) && Enumerates(order, t.ix.tReady)
    ensures RoundTab(t, db, active, order, a).Panic?
  {
    StrandedAborts(t, db, order, a.act, a.us);
  }

  // ----- how such a table comes about -----

  /** Unit `u` is about to be interrupted, and `v` to be started. */
  ghost predicate TwoDue(t: Tab, u: UnitId, v: UnitId) {
    && TabInv(t) && u != v && t.recs.Keys == {u, v} == t.ix.tReady && t.ix.readys == []
    && Interrupts(t.recs[u], Stop, Start) && Pends(t.recs[v], Start, false)
  }

  lemma StopsOne(t: Tab, db: Db, s: Stage, env: CommitEnv, jobs: map<UnitId, JobKind>, u: UnitId, v: UnitId, visit: seq<UnitId>) returns (t': Tab)
    requires OneWorks(t, u, Start) && u != v && Stages(s, jobs) && jobs.Keys == {u, v} && jobs[u] == Stop && jobs[v] == Start
    requires !env.isolate && Enumerates(visit, {u, v}) && t.ids.Keys !! s.ids.Keys
    ensures Takes(t, db, DoCommit(s, env, visit), t') && TwoDue(t', u, v) && t'.ids.Keys <= t.ids.Keys + s.ids.Keys
  {
    AllUnitsAre(t.recs, s, jobs, u, v);
    t' := CommitGoes(t, db, s, env, visit);
    StopsOneRecs(t.recs, t'.recs, s, env, jobs, u, v);
    BothDue(t', u, v);
  }

  lemma AllUnitsAre(recs: Recs, s: Stage, jobs: map<UnitId, JobKind>, u: UnitId, v: UnitId)
    requires s.units.Keys == jobs.Keys == {u, v} && recs.Keys == {u}
    ensures AllUnits(recs, s) == {u, v}
  {
  }

  lemma StopsOneRecs(recs: Recs, recs': Recs, s: Stage, env: CommitEnv, jobs: map<UnitId, JobKind>, u: UnitId, v: UnitId)
    requires AllCanCommit(recs, s, env) && CommittedTo(recs, recs', s, env) && recs.Keys == {u} && Works(recs[u], Start)
    requires u != v && Stages(s, jobs) && jobs.Keys == {u, v} && jobs[u] == Stop && jobs[v] == Start
    ensures recs'.Keys == {u, v} && Interrupts(recs'[u], Stop, Start) && Pends(recs'[v], Start, false)
  {
    CommittedOne(recs, recs', s, env, jobs, u);
    BecomesInterrupted(recs[u], recs'[u]);
    CommittedNew(recs, recs', s, env, jobs, v);
    NoOthers(recs, recs', s, env, u, v);
  }

  lemma BecomesInterrupted(r: R.Rec, r': R.Rec)
    requires Works(r, Start) && V.Settled(r') && OneJob(r'.suspends, Stop)
    requires r'.trigger == r.trigger && r'.retrigger == r.retrigger && r'.pause == r.pause
    ensures Interrupts(r', Stop, Start)
  {
  }

  lemma NoOthers(recs: Recs, recs': Recs, s: Stage, env: CommitEnv, u: UnitId, v: UnitId)
    requires CommittedTo(recs, recs', s, env) && recs.Keys <= {u, v} && s.units.Keys <= {u, v} && u in recs' && v in recs'
    ensures recs'.Keys == {u, v}
  {
  }

  lemma BothDue(t: Tab, u: UnitId, v: UnitId)
    requires TabInv(t) && t.ix.readys == [] && u != v && t.recs.Keys == {u, v}
    requires Interrupts(t.recs[u], Stop, Start) && Pends(t.recs[v], Start, false)
    ensures TwoDue(t, u, v)
  {
    InterruptsReady(t.recs[u], Stop, Start);
    PendsReady(t.recs[v], Start, false);
    AllInReady(t);
    assert ReadyUnits(t.recs) == {u, v};
  }

  /** Unit `v` comes first and leaves `u` in the batch. */
  lemma OtherGoes(t: Tab, db: Db, u: UnitId, v: UnitId, order: seq<UnitId>, act: Option<ActionError>) returns (t': Tab)
    requires TwoDue(t, u, v) && order == [u] + [v] && act != Some(EAgain) && Unordered(db, v)
    ensures Takes(t, db, DoTry(order, act, UnitInActive), t') && TabInv(t') && t'.recs.Keys == {u, v}
    ensures t'.ix.readys == [u] && Interrupts(t'.recs[u], Stop, Start) && BatchOk(t') && t'.ids.Keys <= t.ids.Keys
  {
    assert Members(order) == {u, v};
    NextOfReady(t, [u], v);
    t' := TryHands(t, db, order, v, Start, act);
    OtherStays(t.recs, t'.recs, u, v);
  }

  lemma OtherStays(recs: Recs, recs': Recs, u: UnitId, v: UnitId)
    requires recs.Keys == {u, v} && u != v && v in recs' && recs' == recs[v := recs'[v]] && Interrupts(recs[u], Stop, Start)
    ensures recs'.Keys == {u, v} && Interrupts(recs'[u], Stop, Start) && u in ReadyUnits(recs')
  {
    InterruptsReady(recs[u], Stop, Start);
  }

  // ----- as a run -----

  lemma RunsOne(t: Tab, db: Db, s: Stage, env: CommitEnv, jobs: map<UnitId, JobKind>, u: UnitId) returns (t': Tab)
    requires Idle(t) && Stages(s, jobs) && jobs.Keys == {u} && jobs[u] == Start && !env.isolate && Unordered(db, u)
    ensures Arrives(db, t, t') && OneWorks(t', u, Start) && t'.ids.Keys <= s.ids.Keys
  {
    var order := [] + [u];
    var t1, step;
    t1, t', step := OneHanded(t, db, s, env, jobs, u, order, None);
    ArrivesStep(db, t, DoCommit(s, env, order), t1);
    ArrivesStep(db, t1, step, t');
    ArrivesTrans(db, t, t1, t');
  }

  /** Unit `u` sits in the batch, about to be interrupted. */
  ghost predicate InBatch(t: Tab, u: UnitId, v: UnitId) {
    TabInv(t) && BatchOk(t) && t.recs.Keys == {u, v} && t.ix.readys == [u] && Interrupts(t.recs[u], Stop, Start)
  }

  lemma RunsOther(t: Tab, db: Db, s: Stage, env: CommitEnv, jobs: map<UnitId, JobKind>, u: UnitId, v: UnitId, order: seq<UnitId>) returns (t': Tab)
    requires OneWorks(t, u, Start) && u != v && Stages(s, jobs) && jobs.Keys == {u, v} && jobs[u] == Stop && jobs[v] == Start
    requires !env.isolate && t.ids.Keys !! s.ids.Keys && Unordered(db, v) && order == [u] + [v] && Enumerates(order, {u, v})
    ensures Arrives(db, t, t') && InBatch(t', u, v) && t'.ids.Keys <= t.ids.Keys + s.ids.Keys
  {
    var t1 := RunsDue(t, db, s, env, jobs, u, v, order);
    t' := RunsFirst(t1, db, u, v, order, None);
    ArrivesTrans(db, t, t1, t');
  }

  lemma RunsFirst(t: Tab, db: Db, u: UnitId, v: UnitId, order: seq<UnitId>, act: Option<ActionError>) returns (t': Tab)
    requires TwoDue(t, u, v) && order == [u] + [v] && act != Some(EAgain) && Unordered(db, v)
    ensures Arrives(db, t, t') && InBatch(t', u, v) && t'.ids.Keys <= t.ids.Keys
  {
    t' := OtherGoes(t, db, u, v, order, act);
    ArrivesStep(db, t, DoTry(order, act, UnitInActive), t');
  }

  lemma RunsDue(t: Tab, db: Db, s: Stage, env: CommitEnv, jobs: map<UnitId, JobKind>, u: UnitId, v: UnitId, order: seq<UnitId>) returns (t': Tab)
    requires OneWorks(t, u, Start) && u != v && Stages(s, jobs) && jobs.Keys == {u, v} && jobs[u] == Stop && jobs[v] == Start
    requires !env.isolate && t.ids.Keys !! s.ids.Keys && Enumerates(order, {u, v})
    ensures Arrives(db, t, t') && TwoDue(t', u, v) && t'.ids.Keys <= t.ids.Keys + s.ids.Keys
  {
    t' := StopsOne(t, db, s, env, jobs, u, v, order);
    ArrivesStep(db, t, DoCommit(s, env, order), t');
  }

  /** The whole run: unit `u` is started and runs; it is to be stopped and `v` to be started;
      `v` goes first, and before it is the turn of `u` a request starts `u` again. Nothing is
      wrong with the batch before that request is committed, and everything after it. */
  lemma LateCommitStrands(t: Tab, db: Db, s1: Stage, s2: Stage, s3: Stage, env: CommitEnv,
                          jobs1: map<UnitId, JobKind>, jobs2: map<UnitId, JobKind>, u: UnitId, v: UnitId, order: seq<UnitId>)
    returns (t1: Tab, t2: Tab)
    requires order == [u] + [v] && Idle(t) && !env.isolate && u != v && Unordered(db, u) && Unordered(db, v)
    requires Stages(s1, jobs1) && Stages(s3, jobs1) && jobs1.Keys == {u} && jobs1[u] == Start
    requires Stages(s2, jobs2) && jobs2.Keys == {u, v} && jobs2[u] == Stop && jobs2[v] == Start
    requires s1.ids.Keys !! s2.ids.Keys && s1.ids.Keys + s2.ids.Keys !! s3.ids.Keys
    ensures Arrives(db, t, t1) && InBatch(t1, u, v)
    ensures Takes(t1, db, DoCommit(s3, env, order), t2) && LeftInBatch(t2, u)
  {
    TwoOf(u, v, order);
    var t0 := RunsOne(t, db, s1, env, jobs1, u);
    t1 := RunsOther(t0, db, s2, env, jobs2, u, v, order);
    ArrivesTrans(db, t, t0, t1);
    BothUnits(t1.recs, s3, jobs1, u, v);
    t2 := CommitStrands(t1, db, s3, env, order, jobs1, u);
  }

  lemma BothUnits(recs: Recs, s: Stage, jobs: map<UnitId, JobKind>, u: UnitId, v: UnitId)
    requires u != v && Stages(s, jobs) && jobs.Keys == {u} && recs.Keys == {u, v}
    ensures AllUnits(recs, s) == {u, v}
  {
  }
}
