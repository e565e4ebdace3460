/** The two ways in which a commit forgets a paused unit, as runs from an idle table; after the
    second the manager comes to rest with jobs that are never done. */
module JobLostWakeup {
  import opened Outcomes
  import opened UnitBase
  import opened JobEntry
  import opened JobTableState
  import opened JobTableInvariant
  import opened JobTableSteps
  import opened JobTableCommit
  import opened JobTableRuns
  import opened JobTableProgress
  import opened JobSingle
  import F = JobFinish
  import R = JobUnitRecord
  import V = JobUnitInvariant

  /** Unit `x` comes before `y` and `y` before `z`, and no other units are ordered. */
  ghost predicate ChainOf(db: Db, x: UnitId, y: UnitId, z: UnitId) {
    && x != y && y != z && x != z
    && (forall u :: Gets(db, u, AtomBefore) == if u == x then [y] else if u == y then [z] else [])
    && (forall u :: Gets(db, u, AtomAfter) == if u == y then [x] else if u == z then [y] else [])
  }

  lemma ChainWellOrdered(db: Db, x: UnitId, y: UnitId, z: UnitId)
    requires ChainOf(db, x, y, z)
    ensures WellOrdered(db)
  {
  }

  function Place(u: UnitId, x: UnitId, y: UnitId): nat {
    if u == x then 0 else if u == y then 1 else 2
  }

  lemma {:induction false} ChainRises(db: Db, x: UnitId, y: UnitId, z: UnitId, p: seq<UnitId>)
    requires ChainOf(db, x, y, z) && p != [] && IsChain(db, p)
    ensures Place(p[|p| - 1], x, y) >= Place(p[0], x, y) + |p| - 1
    decreases |p|
  {
    if |p| > 1 {
      var q := p[..|p| - 1];
      ChainSlice(db, p, 0, |p| - 1);
      assert p[0..|p| - 1] == q;
      ChainRises(db, x, y, z, q);
      assert Precedes(db, p[|p| - 2], p[|p| - 1]);
    }
  }

  lemma ChainAcyclic(db: Db, x: UnitId, y: UnitId, z: UnitId)
    requires ChainOf(db, x, y, z)
    ensures Acyclic(db)
  {
    forall p: seq<UnitId> | |p| > 1 && IsChain(db, p) ensures p[0] != p[|p| - 1] {
      ChainRises(db, x, y, z, p);
    }
  }

  /** A pending job that another pending one has to go before. */
  lemma PendBlocks(recs: Recs, db: Db, u: UnitId, k: JobKind, v: UnitId, l: JobKind, atom: OrderAtom, pu: bool, pv: bool)
    requires u in recs && Pends(recs[u], k, pu) && Plain(k) && v in recs && Pends(recs[v], l, pv) && Plain(l)
    requires v in Gets(db, u, if atom.After? then AtomAfter else AtomBefore)
    requires if atom.After? then !IsStopping(k) else IsStopping(l)
    ensures !MayGo(recs, db, u, recs[u].suspends[k])
  {
    var j, h := recs[u].suspends[k], recs[v].suspends[l];
    OrderWithMeans(j, h, atom);
    assert R.Blocks(recs[v], j, atom);
  }

  /** A stop waits for nobody it comes after. */
  lemma LastStopGoes(recs: Recs, db: Db, u: UnitId, p: bool)
    requires u in recs && Pends(recs[u], Stop, p) && Gets(db, u, AtomBefore) == []
    ensures MayGo(recs, db, u, recs[u].suspends[Stop])
  {
    var j := recs[u].suspends[Stop];
    forall h: Job ensures !(IsOrderWith(j, h, After) > 0) {
      OrderWithMeans(j, h, After);
    }
  }

  // ----- a stop for a paused unit -----

  /** `y` is about to be started, and `z` waits for it, paused. */
  ghost predicate OneWaits(t: Tab, y: UnitId, z: UnitId) {
    && TabInv(t) && t.recs.Keys == {y, z} && y != z && t.ix.readys == [y]
    && Pends(t.recs[y], Start, false) && Pends(t.recs[z], Start, true)
  }

  lemma LaterPaused(t: Tab, db: Db, x: UnitId, y: UnitId, z: UnitId, jobs: map<UnitId, JobKind>, order: seq<UnitId>) returns (t': Tab)
    requires ChainOf(db, x, y, z) && AllPend(t, jobs) && jobs.Keys == {y, z} && jobs[y] == Start && jobs[z] == Start && order == [y] + [z]
    ensures Arrives(db, t, t') && OneWaits(t', y, z) && t'.ids == t.ids
  {
    TwoOf(y, z, order);
    NextOfReady(t, [y], z);
    PendBlocks(t.recs, db, z, Start, y, Start, After, false, false);
    t' := RunPauses(t, db, order, z, Start);
    TwoKeys(t.recs, t'.recs, y, z);
  }

  lemma TwoKeys(recs: Recs, recs': Recs, y: UnitId, z: UnitId)
    requires recs.Keys == {y, z} && y != z && z in recs' && recs' == recs[z := recs'[z]]
    ensures recs'.Keys == {y, z} && recs'[y] == recs[y]
  {
  }

  /** The stop of a unit that no other comes after is held up by nobody. */
  lemma StopFree(recs: Recs, db: Db, u: UnitId)
    requires u in recs && Pends(recs[u], Stop, true) && Gets(db, u, AtomBefore) == []
    ensures R.QueueSound(recs[u]) && !HeldUp(recs, db, u)
  {
    PendsReady(recs[u], Stop, true);
    LastStopGoes(recs, db, u, true);
    MayGoOrBlocked(recs, db, u, recs[u].suspends[Stop]);
  }

  /** The start of `z` waits for that of `y`; then `z` is to be stopped. It stays paused, and
      nothing is in its way. */
  lemma StopForgotten(t: Tab, db: Db, s1: Stage, s2: Stage, env: CommitEnv, jobs1: map<UnitId, JobKind>, jobs2: map<UnitId, JobKind>,
                      x: UnitId, y: UnitId, z: UnitId, order: seq<UnitId>)
    returns (t1: Tab, t2: Tab)
    requires order == [y] + [z] && ChainOf(db, x, y, z) && Idle(t) && !env.isolate && s1.ids.Keys !! s2.ids.Keys
    requires Stages(s1, jobs1) && jobs1.Keys == {y, z} && jobs1[y] == Start && jobs1[z] == Start
    requires Stages(s2, jobs2) && jobs2.Keys == {z} && jobs2[z] == Stop
    ensures Arrives(db, t, t1) && OneWaits(t1, y, z) && Arrives(db, t1, t2) && TabInv(t2)
    ensures z in t2.recs && Pends(t2.recs[z], Stop, true) && R.QueueSound(t2.recs[z]) && !HeldUp(t2.recs, db, z)
  {
    TwoOf(y, z, order);
    t1 := StartsTwo(t, db, s1, env, jobs1, x, y, z, order);
    t2 := StopsPaused(t1, db, s2, env, order, jobs2, y, z);
    StopFree(t2.recs, db, z);
  }

  lemma StartsTwo(t: Tab, db: Db, s: Stage, env: CommitEnv, jobs: map<UnitId, JobKind>, x: UnitId, y: UnitId, z: UnitId, order: seq<UnitId>)
    returns (t': Tab)
    requires ChainOf(db, x, y, z) && Idle(t) && !env.isolate && Stages(s, jobs) && order == [y] + [z] && Enumerates(order, {y, z})
    requires jobs.Keys == {y, z} && jobs[y] == Start && jobs[z] == Start
    ensures Arrives(db, t, t') && OneWaits(t', y, z) && t'.ids.Keys <= s.ids.Keys
  {
    var t0 := RunCommitsIdle(t, db, s, env, order, jobs);
    t' := LaterPaused(t0, db, x, y, z, jobs, order);
    ArrivesTrans(db, t, t0, t');
  }

  lemma StopsPaused(t: Tab, db: Db, s: Stage, env: CommitEnv, order: seq<UnitId>, jobs: map<UnitId, JobKind>, y: UnitId, z: UnitId) returns (t': Tab)
    requires OneWaits(t, y, z) && Stages(s, jobs) && jobs.Keys == {z} && jobs[z] == Stop && !env.isolate
    requires t.ids.Keys !! s.ids.Keys && Enumerates(order, {y, z})
    ensures Arrives(db, t, t') && TabInv(t') && z in t'.recs && Pends(t'.recs[z], Stop, true)
  {
    assert AllUnits(t.recs, s) == {y, z};
    t' := RunCommits(t, db, s, env, order);
    CommittedPends(t.recs, t'.recs, s, env, jobs, z, Start, true);
  }

  // ----- the job that was in the way is dropped -----

  /** The start of `x` waits for the stop of `y`, and that for the stop of `z`, which runs. */
  ghost predicate TwoWait(t: Tab, x: UnitId, y: UnitId, z: UnitId, k: JobKind) {
    && TabInv(t) && t.recs.Keys == {x, y, z} && t.ix.readys == []
    && Pends(t.recs[x], Start, true) && Pends(t.recs[y], k, true) && Works(t.recs[z], Stop)
  }

  predicate StopsTwo(jobs: map<UnitId, JobKind>, x: UnitId, y: UnitId, z: UnitId) {
    x != y && y != z && x != z && jobs.Keys == {x, y, z} && jobs[x] == Start && jobs[y] == Stop && jobs[z] == Stop
  }

  /** `us` are left to be tried; `px` and `py` tell whether `x` and `y` have been paused. */
  ghost predicate TriedSoFar(t: Tab, x: UnitId, y: UnitId, z: UnitId, us: seq<UnitId>, px: bool, py: bool) {
    && TabInv(t) && t.recs.Keys == {x, y, z} && t.ix.readys == us
    && Pends(t.recs[x], Start, px) && Pends(t.recs[y], Stop, py) && Pends(t.recs[z], Stop, false)
  }

  lemma FirstTried(t: Tab, db: Db, x: UnitId, y: UnitId, z: UnitId, jobs: map<UnitId, JobKind>, us: seq<UnitId>) returns (t': Tab)
    requires AllPend(t, jobs) && StopsTwo(jobs, x, y, z) && us == [] + [z] + [y] && !MayGo(t.recs, db, x, t.recs[x].suspends[Start])
    ensures Arrives(db, t, t') && TriedSoFar(t', x, y, z, us, true, false) && t'.ids == t.ids
  {
    var order := us + [x];
    ThreeOf(x, y, z, us);
    NextOfReady(t, us, x);
    t' := RunPauses(t, db, order, x, Start);
    OthersKept(t.recs, t'.recs, x, y, z);
  }

  lemma ThreeOf(x: UnitId, y: UnitId, z: UnitId, us: seq<UnitId>)
    requires x != y && y != z && x != z && us == [] + [z] + [y]
    ensures Enumerates(us + [x], {x, y, z})
  {
    assert Members(us + [x]) == {x, y, z};
  }

  lemma OthersKept(recs: Recs, recs': Recs, a: UnitId, b: UnitId, c: UnitId)
    requires a in recs && b in recs && c in recs && a != b && a != c && a in recs' && recs' == recs[a := recs'[a]]
    ensures recs'.Keys == recs.Keys && recs'[b] == recs[b] && recs'[c] == recs[c]
  {
  }

  lemma SecondTried(t: Tab, db: Db, x: UnitId, y: UnitId, z: UnitId, us: seq<UnitId>, none: seq<UnitId>) returns (t': Tab)
    requires none == [] && x != y && y != z && x != z && TriedSoFar(t, x, y, z, us + [y], true, false)
    requires !MayGo(t.recs, db, y, t.recs[y].suspends[Stop])
    ensures Arrives(db, t, t') && TriedSoFar(t', x, y, z, us, true, true) && t'.ids == t.ids
  {
    NextOfLast(t, us, y, none);
    t' := RunPauses(t, db, none, y, Stop);
    OthersKept(t.recs, t'.recs, y, x, z);
  }

  lemma ThirdTried(t: Tab, db: Db, x: UnitId, y: UnitId, z: UnitId, none: seq<UnitId>) returns (t': Tab)
    requires none == [] && x != y && y != z && x != z && TriedSoFar(t, x, y, z, none + [z], true, true)
    requires MayGo(t.recs, db, z, t.recs[z].suspends[Stop])
    ensures Arrives(db, t, t') && TwoWait(t', x, y, z, Stop) && t'.ids.Keys <= t.ids.Keys
  {
    NextOfLast(t, none, z, none);
    t' := RunHands(t, db, none, z, Stop, None);
    OthersKept(t.recs, t'.recs, z, x, y);
  }

  /** While all three are pending only `z` may go. */
  lemma WhoMayGo(recs: Recs, db: Db, x: UnitId, y: UnitId, z: UnitId, px: bool, py: bool)
    requires ChainOf(db, x, y, z) && x in recs && y in recs && z in recs
    requires Pends(recs[x], Start, px) && Pends(recs[y], Stop, py) && Pends(recs[z], Stop, false)
    ensures !MayGo(recs, db, x, recs[x].suspends[Start]) && !MayGo(recs, db, y, recs[y].suspends[Stop])
    ensures MayGo(recs, db, z, recs[z].suspends[Stop])
  {
    PendBlocks(recs, db, x, Start, y, Stop, Before, px, py);
    PendBlocks(recs, db, y, Stop, z, Stop, Before, py, false);
    LastStopGoes(recs, db, z, false);
  }

  lemma AllTried(t: Tab, db: Db, x: UnitId, y: UnitId, z: UnitId, jobs: map<UnitId, JobKind>) returns (t': Tab)
    requires ChainOf(db, x, y, z) && AllPend(t, jobs) && StopsTwo(jobs, x, y, z)
    ensures Arrives(db, t, t') && TwoWait(t', x, y, z, Stop) && t'.ids.Keys <= t.ids.Keys
  {
    var us := [] + [z];
    WhoMayGo(t.recs, db, x, y, z, false, false);
    var t1 := FirstTried(t, db, x, y, z, jobs, us + [y]);
    t' := OthersTried(t1, db, x, y, z, us, []);
    ArrivesTrans(db, t, t1, t');
  }

  lemma OthersTried(t: Tab, db: Db, x: UnitId, y: UnitId, z: UnitId, us: seq<UnitId>, none: seq<UnitId>) returns (t': Tab)
    requires ChainOf(db, x, y, z) && none == [] && us == none + [z] && TriedSoFar(t, x, y, z, us + [y], true, false)
    ensures Arrives(db, t, t') && TwoWait(t', x, y, z, Stop) && t'.ids.Keys <= t.ids.Keys
  {
    WhoMayGo(t.recs, db, x, y, z, true, false);
    var t1 := SecondTried(t, db, x, y, z, us, none);
    WhoMayGo(t1.recs, db, x, y, z, true, true);
    t' := ThirdTried(t1, db, x, y, z, none);
    ArrivesTrans(db, t, t1, t');
  }

  /** Unit `y` is to be started after all. */
  lemma StartsInstead(t: Tab, db: Db, s: Stage, env: CommitEnv, order: seq<UnitId>, jobs: map<UnitId, JobKind>, x: UnitId, y: UnitId, z: UnitId)
    returns (t': Tab)
    requires x != y && y != z && x != z && TwoWait(t, x, y, z, Stop) && Stages(s, jobs) && jobs.Keys == {y} && jobs[y] == Start && !env.isolate
    requires t.ids.Keys !! s.ids.Keys && Enumerates(order, {x, y, z})
    ensures Arrives(db, t, t') && TwoWait(t', x, y, z, Start)
  {
    assert AllUnits(t.recs, s) == {x, y, z};
    t' := RunCommits(t, db, s, env, order);
    CommittedPends(t.recs, t'.recs, s, env, jobs, y, Stop, true);
    OthersStay(t.recs, t'.recs, s, env, x, y, z);
  }

  lemma OthersStay(recs: Recs, recs': Recs, s: Stage, env: CommitEnv, x: UnitId, y: UnitId, z: UnitId)
    requires AllCanCommit(recs, s, env) && CommittedTo(recs, recs', s, env) && s.units.Keys == {y} && !env.isolate
    requires x != y && y != z && x != z && recs.Keys == {x, y, z} && y in recs'
    ensures recs'.Keys == {x, y, z} && recs'[x] == recs[x] && recs'[z] == recs[z]
  {
    OneStays(recs, recs', s, env, x, y);
    OneStays(recs, recs', s, env, z, y);
    NoOthers(recs.Keys, recs'.Keys, AllUnits(recs, s), x, y, z);
  }

  lemma OneStays(recs: Recs, recs': Recs, s: Stage, env: CommitEnv, u: UnitId, y: UnitId)
    requires AllCanCommit(recs, s, env) && CommittedTo(recs, recs', s, env) && s.units.Keys == {y} && !env.isolate
    requires u in recs && u != y
    ensures u in recs' && recs'[u] == recs[u]
  {
    CommittedNone(recs, recs', s, env, u);
  }

  lemma NoOthers(before: set<UnitId>, after: set<UnitId>, all: set<UnitId>, x: UnitId, y: UnitId, z: UnitId)
    requires before == {x, y, z} == all && after <= all && x in after && y in after && z in after
    ensures after == {x, y, z}
  {
  }

  /** Nothing is in the way of `x` any more, and nothing is left of what would wake it. */
  lemma StartFree(recs: Recs, db: Db, x: UnitId, y: UnitId, z: UnitId)
    requires ChainOf(db, x, y, z) && x in recs && y in recs && Pends(recs[x], Start, true) && Pends(recs[y], Start, true)
    ensures R.QueueSound(recs[x]) && !HeldUp(recs, db, x)
  {
    PendsReady(recs[x], Start, true);
    var j, h := recs[x].suspends[Start], recs[y].suspends[Start];
    OrderWithMeans(j, h, Before);
    MayGoOrBlocked(recs, db, x, j);
  }

  /** `y` is to be stopped after the stop of `z`, and `x` started after that of `y`; only the
      stop of `z` is begun. Then `y` is to be started instead: with its stop the reason goes why
      `x` waits, and nothing wakes `x`. */
  lemma BlockerDropped(t: Tab, db: Db, s1: Stage, s2: Stage, env: CommitEnv, jobs1: map<UnitId, JobKind>, jobs2: map<UnitId, JobKind>,
                       x: UnitId, y: UnitId, z: UnitId, order: seq<UnitId>)
    returns (t1: Tab, t2: Tab)
    requires order == [y] + [z] && ChainOf(db, x, y, z) && Idle(t) && !env.isolate && s1.ids.Keys !! s2.ids.Keys
    requires Stages(s1, jobs1) && StopsTwo(jobs1, x, y, z) && Stages(s2, jobs2) && jobs2.Keys == {y} && jobs2[y] == Start
    ensures Arrives(db, t, t1) && TwoWait(t1, x, y, z, Stop) && Arrives(db, t1, t2) && TwoWait(t2, x, y, z, Start)
    ensures R.QueueSound(t2.recs[x]) && !HeldUp(t2.recs, db, x)
  {
    var order := [] + [z] + [y] + [x];
    ThreeOf(x, y, z, [] + [z] + [y]);
    t1 := StopsBegun(t, db, s1, env, order, jobs1, x, y, z);
    t2 := StartsInstead(t1, db, s2, env, order, jobs2, x, y, z);
    StartFree(t2.recs, db, x, y, z);
  }

  lemma StopsBegun(t: Tab, db: Db, s: Stage, env: CommitEnv, order: seq<UnitId>, jobs: map<UnitId, JobKind>, x: UnitId, y: UnitId, z: UnitId)
    returns (t': Tab)
    requires ChainOf(db, x, y, z) && Idle(t) && !env.isolate && Stages(s, jobs) && StopsTwo(jobs, x, y, z) && Enumerates(order, {x, y, z})
    ensures Arrives(db, t, t') && TwoWait(t', x, y, z, Stop) && t'.ids.Keys <= s.ids.Keys
  {
    var t0 := RunCommitsIdle(t, db, s, env, order, jobs);
    t' := AllTried(t0, db, x, y, z, jobs);
    ArrivesTrans(db, t, t0, t');
  }

  // ----- and is never done -----

  lemma StopDone(r: R.Rec)
    requires Works(r, Stop)
    ensures CanFinish(r.trigger.value) && IsEmptyRec(V.FinishedRec(r, Done)) && !V.FinishedRec(r, Done).ready
  {
    WorksIdle(r, Stop);
    V.FinishShape(r, Done);
    FinishRetriesIff(r.trigger.value, Done);
  }

  /** `x` and `y` are all that is left: `x` paused, `y` ready or paused. */
  ghost predicate TwoLeft(t: Tab, x: UnitId, y: UnitId, paused: bool) {
    && TabInv(t) && x != y && t.recs.Keys == {x, y} && t.ix.readys == []
    && Pends(t.recs[x], Start, true) && Pends(t.recs[y], Start, paused)
  }

  /** With one unit related to it, the end of a unit's job resumes that one alone. */
  lemma FinishOnly(t: Tab, db: Db, z: UnitId, y: UnitId, x: UnitId, r': R.Rec)
    requires Gets(db, z, AtomAfter) == [y] && Gets(db, z, AtomBefore) == [] && Rewrite(t, db, z, r').Ok?
    requires x in t.recs && x != y && x != z
    ensures x in Rewrite(t, db, z, r').value.recs && Rewrite(t, db, z, r').value.recs[x] == t.recs[x]
  {
    var t1 := PutRec(t, z, r');
    assert [y][1..] == [];
    assert ResumeAll(t1, [y]) == ResumeUnit(t1, y);
    ResumeUnitOnly(t1, y, x);
  }

  lemma NobodyStale(recs: Recs, db: Db, y: UnitId, z: UnitId, paused: bool)
    requires Gets(db, z, AtomAfter) == [y] && Gets(db, z, AtomBefore) == [] && y in recs && Pends(recs[y], Start, paused)
    ensures !RelatedStale(recs, db, z)
  {
    PendsReady(recs[y], Start, paused);
  }

  lemma FinishArrives(t: Tab, db: Db, z: UnitId, t': Tab)
    requires TabInv(t) && JobTableState.FinishTrigger(t, db, z, Done).Ok? && t' == JobTableState.FinishTrigger(t, db, z, Done).value.0
    ensures Arrives(db, t, t')
  {
    CoreSound(t, {});
    ArrivesStep(db, t, DoFinish(z, Done), t');
  }

  /** The end of the stop of `z`. */
  lemma StopGoes(t: Tab, db: Db, x: UnitId, y: UnitId, z: UnitId) returns (t': Tab)
    requires TabInv(t) && z in t.recs && Works(t.recs[z], Stop) && y in t.recs && Pends(t.recs[y], Start, true) && x in t.recs
    requires Gets(db, z, AtomAfter) == [y] && Gets(db, z, AtomBefore) == [] && x != y && x != z && y != z && t.ix.readys == []
    ensures CanFinish(t.recs[z].trigger.value) && Arrives(db, t, t') && TabInv(t') && t'.ix.readys == []
    ensures Rewritten(t.recs, t'.recs, z, V.FinishedRec(t.recs[z], Done)) && RelatedResumed(t'.recs, db, z)
    ensures x in t'.recs && t'.recs[x] == t.recs[x]
  {
    NobodyStale(t.recs, db, y, z, true);
    FinishTriggerAborts(t, db, z, Done);
    FinishTriggerInv(t, db, z, Done);
    t' := JobTableState.FinishTrigger(t, db, z, Done).value.0;
    FinishArrives(t, db, z, t');
    FinishedOnly(t, db, x, y, z);
  }

  lemma FinishedOnly(t: Tab, db: Db, x: UnitId, y: UnitId, z: UnitId)
    requires JobTableState.FinishTrigger(t, db, z, Done).Ok? && t.ix.readys == [] && x in t.recs
    requires Gets(db, z, AtomAfter) == [y] && Gets(db, z, AtomBefore) == [] && x != y && x != z
    ensures
      var t' := JobTableState.FinishTrigger(t, db, z, Done).value.0;
      t'.ix.readys == [] && x in t'.recs && t'.recs[x] == t.recs[x]
  {
    var r' := R.FinishEntry(t.recs[z], Done).value.0;
    F.RewriteNoBatch(t, db, z, r');
    FinishOnly(t, db, z, y, x, r');
  }

  /** It wakes `y`, and not `x`. */
  lemma StopEnds(t: Tab, db: Db, x: UnitId, y: UnitId, z: UnitId) returns (t': Tab)
    requires ChainOf(db, x, y, z) && TwoWait(t, x, y, z, Start)
    ensures Arrives(db, t, t') && TwoLeft(t', x, y, false)
  {
    assert Gets(db, z, AtomAfter) == [y] && Gets(db, z, AtomBefore) == [];
    t' := StopGoes(t, db, x, y, z);
    StopDone(t.recs[z]);
    WokenBy(t.recs, t'.recs, db, x, y, z, V.FinishedRec(t.recs[z], Done));
  }

  lemma WokenBy(recs: Recs, recs': Recs, db: Db, x: UnitId, y: UnitId, z: UnitId, r': R.Rec)
    requires x != y && y != z && x != z && recs.Keys == {x, y, z} && Pends(recs[y], Start, true) && Gets(db, z, AtomAfter) == [y]
    requires Rewritten(recs, recs', z, r') && RelatedResumed(recs', db, z) && IsEmptyRec(r') && AllSettled(recs')
    ensures recs'.Keys == {x, y} && Pends(recs'[y], Start, false)
  {
    assert Related(db, z, y);
    assert Resumed(recs[y], recs'[y]);
  }

  /** `y` is next, and waits for `x`. */
  lemma PausedAgain(t: Tab, db: Db, x: UnitId, y: UnitId, z: UnitId, order: seq<UnitId>) returns (t': Tab)
    requires ChainOf(db, x, y, z) && TwoLeft(t, x, y, false) && order == [] + [y]
    ensures Arrives(db, t, t') && TwoLeft(t', x, y, true)
  {
    OneReady(t, x, y);
    assert Members(order) == {y};
    NextOfReady(t, [], y);
    PendBlocks(t.recs, db, y, Start, x, Start, After, false, true);
    t' := RunPauses(t, db, order, y, Start);
    TwoKeys(t.recs, t'.recs, x, y);
  }

  lemma OneReady(t: Tab, x: UnitId, y: UnitId)
    requires TwoLeft(t, x, y, false)
    ensures t.ix.tReady == {y}
  {
    PendsReady(t.recs[x], Start, true);
    PendsReady(t.recs[y], Start, false);
    AllInReady(t);
    assert ReadyUnits(t.recs) == {y};
  }

  lemma AtRest(t: Tab, x: UnitId, y: UnitId)
    requires TwoLeft(t, x, y, true)
    ensures ReadyUnits(t.recs) == {} && NothingRuns(t.recs) && BusyUnits(t.recs) == {x, y}
  {
    PendsReady(t.recs[x], Start, true);
    PendsReady(t.recs[y], Start, true);
    assert Start in t.recs[x].suspends && Start in t.recs[y].suspends;
  }

  /** So the manager comes to rest: when the stop of `z` has ended and `y` has been tried once
      more, nothing is ready and nothing runs, the order has no cycle, and neither `x` nor `y`
      is ever started. */
  lemma JobsLeftUndone(t: Tab, db: Db, x: UnitId, y: UnitId, z: UnitId) returns (t': Tab)
    requires ChainOf(db, x, y, z) && TwoWait(t, x, y, z, Start)
    ensures Arrives(db, t, t') && WellOrdered(db) && Acyclic(db)
    ensures ReadyUnits(t'.recs) == {} && NothingRuns(t'.recs) && BusyUnits(t'.recs) == {x, y}
  {
    ChainWellOrdered(db, x, y, z);
    ChainAcyclic(db, x, y, z);
    var t1 := StopEnds(t, db, x, y, z);
    t' := PausedAgain(t1, db, x, y, z, [] + [y]);
    ArrivesTrans(db, t, t1, t');
    AtRest(t', x, y);
  }
}
