/** Checking a transaction before it is committed: against itself, and against what the
    live table already holds (process1/src/manager/unit/job/job_transaction.rs). */
module JobVerify {
  import opened Outcomes
  import opened UnitBase
  import opened JobEntry
  import opened JobExpansion
  import opened JobTransaction
  import opened JobTableState
  import opened JobTableInvariant
  import opened JobTableCommit
  import R = JobUnitRecord
  import V = JobUnitInvariant

  predicate StageConflicts(units: Units) {
    exists u :: u in units && R.IsConflict(units[u])
  }

  predicate LiveConflicts(recs: Recs) {
    exists u :: u in recs && R.IsConflict(recs[u].suspends)
  }

  predicate ConflictsWith(recs: Recs, units: Units) {
    exists u :: u in recs && u in units && R.IsConflictWith(recs[u].suspends, units[u])
  }

  predicate ReplaceableWith(recs: Recs, units: Units) {
    forall u :: u in recs && u in units ==> R.IsReplaceWith(recs[u].suspends, units[u])
  }

  /** May the staged jobs be committed? */
  function VerifyStage(units: Units, recs: Recs, mode: JobMode): Outcome<bool> {
    if StageConflicts(units) then Ok(false)
    else if LiveConflicts(recs) then Panic
    else if !ConflictsWith(recs, units) then Ok(true)
    else Ok(mode != Fail && ReplaceableWith(recs, units))
  }

  predicate SelfConsistent(units: Units) {
    forall u :: u in units ==> R.Consistent(units[u])
  }

  /** A unit's suspended jobs give way: a conflict, outside fail mode, with nothing irreversible. */
  predicate GivesWay(recs: Recs, units: Units, mode: JobMode, u: UnitId)
    requires u in recs && u in units
  {
    R.IsConflictWith(recs[u].suspends, units[u]) ==> mode != Fail && !R.IsIrreversible(recs[u].suspends)
  }

  /** On a settled table the check never aborts, and it lets a transaction through
      exactly when it is self-consistent and every unit it is in conflict with may be
      overridden. */
  lemma VerifyMeaning(units: Units, recs: Recs, mode: JobMode)
    requires forall u :: u in recs ==> V.Settled(recs[u])
    ensures VerifyStage(units, recs, mode).Ok?
    ensures VerifyStage(units, recs, mode) == Ok(true) <==>
      SelfConsistent(units) && forall u :: u in recs && u in units ==> GivesWay(recs, units, mode, u)
  {
    ConflictsMean(units);
    LiveConsistent(recs);
    if SelfConsistent(units) {
      GivesWayMeans(recs, units, mode);
    }
  }

  lemma GivesWayMeans(recs: Recs, units: Units, mode: JobMode)
    requires SelfConsistent(units) && forall u :: u in recs ==> R.Consistent(recs[u].suspends)
    ensures !ConflictsWith(recs, units) || (mode != Fail && ReplaceableWith(recs, units)) <==>
      forall u :: u in recs && u in units ==> GivesWay(recs, units, mode, u)
  {
    forall u | u in recs && u in units ensures ReplaceIff(recs, units, u) {
      R.ReplaceDecidesConflict(recs[u].suspends, units[u]);
    }
  }

  predicate ReplaceIff(recs: Recs, units: Units, u: UnitId)
    requires u in recs && u in units
  {
    R.IsReplaceWith(recs[u].suspends, units[u]) <==>
      !R.IsConflictWith(recs[u].suspends, units[u]) || !R.IsIrreversible(recs[u].suspends)
  }

  lemma LiveConsistent(recs: Recs)
    requires forall u :: u in recs ==> V.Settled(recs[u])
    ensures !LiveConflicts(recs) && forall u :: u in recs ==> R.Consistent(recs[u].suspends)
  {
    forall u | u in recs ensures !R.IsConflict(recs[u].suspends) && R.Consistent(recs[u].suspends) {
      R.ConflictMeaning(recs[u].suspends);
    }
  }

  lemma ConflictsMean(units: Units)
    ensures StageConflicts(units) <==> !SelfConsistent(units)
  {
    forall u | u in units ensures R.IsConflict(units[u]) <==> !R.Consistent(units[u]) {
      R.ConflictMeaning(units[u]);
    }
  }

  /** What passes the check is fit for a commit. */
  lemma VerifiedStageOk(units: Units, ids: map<nat, JobRef>, recs: Recs, mode: JobMode)
    requires StageFine(units, ids, mode) && VerifyStage(units, recs, mode) == Ok(true)
    ensures StageOk(Stage(units, ids))
  {
    ConflictsMean(units);
    forall u | u in units ensures V.StagedJobs(units[u]) {
      forall k | k in units[u]
        ensures units[u][k].kind == k && WfJob(units[u][k]) && units[u][k].stage == Init && units[u][k].runKind == RunKindNew(k)
      {
        assert IsBasic(k) && units[u][k] == NewJob(units[u][k].id, u, k, mode);
      }
    }
  }

  // ----- protected jobs -----

  /** No suspended job of a unit that has an irreversible one is cancelled by a request
      that neither isolates nor flushes; a request in fail mode cancels none at all. */
  lemma ProtectedJobsSurvive(units: Units, ids: map<nat, JobRef>, recs: Recs, mode: JobMode, env: CommitEnv, u: UnitId)
    requires forall v :: v in recs ==> V.Settled(recs[v])
    requires VerifyStage(units, recs, mode) == Ok(true) && !env.isolate && u in recs
    requires mode.Fail? || R.IsIrreversible(recs[u].suspends)
    ensures !Dropped(recs, Stage(units, ids), env, u)
    ensures u in units ==> V.MergeBase(recs[u].suspends, units[u]) == recs[u].suspends
  {
    VerifyMeaning(units, recs, mode);
    if u in units {
      assert GivesWay(recs, units, mode, u);
    }
  }

  /** Conversely, whatever is cancelled by such a request is of a unit it conflicts with. */
  lemma CancelledIff(units: Units, ids: map<nat, JobRef>, recs: Recs, mode: JobMode, env: CommitEnv, u: UnitId)
    requires forall v :: v in recs ==> V.Settled(recs[v])
    requires VerifyStage(units, recs, mode) == Ok(true) && !env.isolate && u in recs
    ensures Dropped(recs, Stage(units, ids), env, u) <==>
      u in units && ((Stop in recs[u].suspends && R.HasOther(units[u])) || (Stop in units[u] && R.HasOther(recs[u].suspends)))
  {
    VerifyMeaning(units, recs, mode);
    if u in units {
      R.ConflictWithMeaning(recs[u].suspends, units[u]);
    }
  }

  // ----- isolation defeats itself -----

  /** Isolation adds nothing but stops. */
  lemma IsolationAddsStops(db: Db, active: Active, roots: set<Item>, registered: seq<UnitId>, exempt: set<UnitId>, s1: set<Item>, s2: set<Item>)
    requires LeastOver(db, active, roots, s1) && LeastOver(db, active, roots + StopsOf(registered, s1, exempt), s2)
    ensures OnlyStopsAdded(s1, s2)
  {
    var units := Members(registered);
    var all := AllItems(db, units);
    var c := s1 + (set x | x in all && x.kind.Stop?);
    AllItemsClosed(db, active, units);
    forall a, v, k | a in c && Asks(db, a, v, k) ensures Mapped(active, v, k) in c {
      if a !in s1 {
        assert Mapped(active, v, k) in all;
      }
    }
    assert roots + StopsOf(registered, s1, exempt) <= c;
    assert Closed(db, active, c);
    LeastGrows(db, active, roots, StopsOf(registered, s1, exempt), s1, s2);
  }

  lemma LeastGrows(db: Db, active: Active, roots: set<Item>, more: set<Item>, s1: set<Item>, s2: set<Item>)
    requires LeastOver(db, active, roots, s1) && LeastOver(db, active, roots + more, s2)
    ensures s1 <= s2
  {
    assert roots <= roots + more;
  }

  /** Some job of the unit is among what the request leads to. */
  ghost predicate Involves(db: Db, active: Active, root: Item, v: UnitId) {
    exists k :: Reaches(db, active, root, Item(v, k))
  }

  /** The request stops the unit: of itself, or with one of the registered, non-exempt units
      it involves. */
  ghost predicate StopsUnit(db: Db, active: Active, root: Item, registered: seq<UnitId>, exempt: set<UnitId>, u: UnitId) {
    Reaches(db, active, root, Item(u, Stop)) ||
    exists v :: v in registered && v !in exempt && Involves(db, active, root, v) && Reaches(db, active, Item(v, Stop), Item(u, Stop))
  }

  lemma InvolvedUnits(db: Db, active: Active, root: Item, s1: set<Item>, v: UnitId)
    requires LeastOver(db, active, {root}, s1)
    ensures v in UnitsOf(s1) <==> Involves(db, active, root, v)
  {
    if v in UnitsOf(s1) {
      var x :| x in s1 && x.unit == v;
      LeastIsReachable(db, active, {root}, s1, x);
      assert x == Item(v, x.kind);
    }
    if Involves(db, active, root, v) {
      var k :| Reaches(db, active, root, Item(v, k));
      assert root in {root};
      LeastIsReachable(db, active, {root}, s1, Item(v, k));
    }
  }

  lemma StopsAre(db: Db, active: Active, root: Item, registered: seq<UnitId>, exempt: set<UnitId>, s1: set<Item>, s2: set<Item>, u: UnitId)
    requires LeastOver(db, active, {root}, s1) && LeastOver(db, active, {root} + StopsOf(registered, s1, exempt), s2)
    ensures Item(u, Stop) in s2 <==> StopsUnit(db, active, root, registered, exempt, u)
  {
    var stops, x := StopsOf(registered, s1, exempt), Item(u, Stop);
    LeastIsReachable(db, active, {root} + stops, s2, x);
    if ReachedFrom(db, active, {root} + stops, x) {
      var r :| r in {root} + stops && Reaches(db, active, r, x);
      if r != root {
        InvolvedUnits(db, active, root, s1, r.unit);
      }
    }
    if v :| v in registered && v !in exempt && Involves(db, active, root, v) && Reaches(db, active, Item(v, Stop), x) {
      InvolvedUnits(db, active, root, s1, v);
      assert Item(v, Stop) in {root} + stops;
    }
    assert root in {root} + stops;
  }

  /** Because the test is inverted, isolation stops what it has just started. The stage is in
      conflict with itself exactly when the request leads to a job other than a stop or nop of
      a unit that it also stops, of itself or with a registered, non-exempt unit it involves. */
  lemma IsolationConflictsIff(db: Db, active: Active, root: Item, registered: seq<UnitId>, exempt: set<UnitId>, s1: set<Item>, units: Units)
    requires LeastOver(db, active, {root}, s1)
    requires LeastOver(db, active, {root} + StopsOf(registered, s1, exempt), ItemsOf(units))
    ensures StageConflicts(units) <==>
      exists x ::
        Reaches(db, active, root, x) && !x.kind.Stop? && !x.kind.Nop? && StopsUnit(db, active, root, registered, exempt, x.unit)
  {
    StagedConflicts(db, active, root, registered, exempt, s1, units);
    if x :| x in s1 && !x.kind.Stop? && !x.kind.Nop? && Item(x.unit, Stop) in ItemsOf(units) {
      LeastIsReachable(db, active, {root}, s1, x);
      StopsAre(db, active, root, registered, exempt, s1, ItemsOf(units), x.unit);
    }
    if x :| Reaches(db, active, root, x) && !x.kind.Stop? && !x.kind.Nop? && StopsUnit(db, active, root, registered, exempt, x.unit) {
      assert root in {root};
      LeastIsReachable(db, active, {root}, s1, x);
      StopsAre(db, active, root, registered, exempt, s1, ItemsOf(units), x.unit);
    }
  }

  lemma StagedConflicts(db: Db, active: Active, root: Item, registered: seq<UnitId>, exempt: set<UnitId>, s1: set<Item>, units: Units)
    requires LeastOver(db, active, {root}, s1)
    requires LeastOver(db, active, {root} + StopsOf(registered, s1, exempt), ItemsOf(units))
    ensures StageConflicts(units) <==>
      exists x :: x in s1 && !x.kind.Stop? && !x.kind.Nop? && Item(x.unit, Stop) in ItemsOf(units)
  {
    var s2 := ItemsOf(units);
    IsolationAddsStops(db, active, {root}, registered, exempt, s1, s2);
    ConflictsMean(units);
    if StageConflicts(units) {
      var u :| u in units && !R.Consistent(units[u]);
      var k :| k in units[u] && !k.Stop? && !k.Nop?;
      assert Item(u, k) in s2 && Item(u, k) in s1 && Item(u, Stop) in s2;
    }
    if x :| x in s1 && !x.kind.Stop? && !x.kind.Nop? && Item(x.unit, Stop) in s2 {
      assert x in s2;
      assert !R.Consistent(units[x.unit]);
    }
  }

  /** In particular no registered unit that isolation may affect can ever be isolated:
      the request is refused whatever else is going on. */
  lemma IsolationRefused(db: Db, active: Active, u: UnitId, registered: seq<UnitId>, exempt: set<UnitId>, s1: set<Item>, units: Units, recs: Recs)
    requires LeastOver(db, active, {Item(u, Start)}, s1) && u in registered && u !in exempt
    requires LeastOver(db, active, {Item(u, Start)} + StopsOf(registered, s1, exempt), ItemsOf(units))
    ensures VerifyStage(units, recs, Isolate) == Ok(false)
  {
    var root := Item(u, Start);
    ReachesSelf(db, active, root);
    ReachesSelf(db, active, Item(u, Stop));
    assert Involves(db, active, root, u);
    assert StopsUnit(db, active, root, registered, exempt, u);
    IsolationConflictsIff(db, active, root, registered, exempt, s1, units);
    assert root.kind == Start;
  }
}
