/** The id index through a commit, and the commit as a whole: refused, aborting or
    done, and independent of the order in which the units are visited. */
module JobTableCommitIds {
  import opened Outcomes
  import opened UnitBase
  import opened JobEntry
  import opened JobTableState
  import opened JobTableIndex
  import opened JobTableInvariant
  import opened JobTableCommit
  import R = JobUnitRecord
  import V = JobUnitInvariant

  predicate SuspendedAs(r: R.Rec, k: JobKind, id: nat) {
    k in r.suspends && r.suspends[k].id == id
  }

  predicate TriggeredAs(r: R.Rec, k: JobKind, id: nat) {
    r.trigger.Some? && r.trigger.value.kind == k && r.trigger.value.id == id
  }

  /** A job of the live table that isolation and merging leave in place. */
  predicate Kept(recs: Recs, s: Stage, env: CommitEnv, u: UnitId, k: JobKind, id: nat) {
    u in recs && (TriggeredAs(recs[u], k, id) || (SuspendedAs(recs[u], k, id) && !Dropped(recs, s, env, u)))
  }

  /** A staged job that does not merge into a live one. */
  predicate Added(recs: Recs, s: Stage, env: CommitEnv, u: UnitId, k: JobKind, id: nat) {
    u in s.units && k in s.units[u] && s.units[u][k].id == id &&
    !(u in recs && k in recs[u].suspends && !Dropped(recs, s, env, u))
  }

  predicate Listed(s: R.Suspends, k: JobKind, id: nat) {
    k in s && s[k].id == id
  }

  lemma UnionLists(s: R.Suspends, o: R.Suspends, k: JobKind, id: nat)
    ensures Listed(R.Union(s, o), k, id) <==> Listed(s, k, id) || (Listed(o, k, id) && k !in s)
  {
  }

  lemma StagedLists(recs: Recs, s: Stage, env: CommitEnv, u: UnitId, k: JobKind, id: nat)
    requires CanCommit(recs, s, env, u) && u in s.units
    ensures Listed(R.Union(V.MergeBase(OldRec(recs, u).suspends, s.units[u]), s.units[u]), k, id) <==>
      (u in recs && Listed(recs[u].suspends, k, id) && !Dropped(recs, s, env, u)) || Added(recs, s, env, u, k, id)
  {
    var base := V.MergeBase(OldRec(recs, u).suspends, s.units[u]);
    UnionLists(base, s.units[u], k, id);
    assert k in base <==> u in recs && k in recs[u].suspends && !Dropped(recs, s, env, u);
  }

  lemma StagedHolds(recs: Recs, s: Stage, env: CommitEnv, u: UnitId, k: JobKind, id: nat)
    requires CanCommit(recs, s, env, u)
    ensures Staged(recs, s, env, u).Ok?
    ensures Holds(Staged(recs, s, env, u).value, k, id) <==> Kept(recs, s, env, u, k, id) || Added(recs, s, env, u, k, id)
  {
    StagedShape(recs, s, env, u);
    var r := Staged(recs, s, env, u).value;
    assert TriggeredAs(r, k, id) <==> u in recs && TriggeredAs(recs[u], k, id);
    assert Holds(r, k, id) <==> TriggeredAs(r, k, id) || Listed(r.suspends, k, id);
    if u in s.units {
      StagedLists(recs, s, env, u, k, id);
    }
  }

  lemma AddedRefers(recs: Recs, s: Stage, env: CommitEnv, u: UnitId, k: JobKind, id: nat)
    requires StageOk(s)
    ensures Refers(AddedIds(recs, s, env), id, u, k) <==> Added(recs, s, env, u, k, id)
  {
    assert Refers(s.ids, id, u, k) <==> u in s.units && k in s.units[u] && s.units[u][k].id == id;
  }

  lemma DroppedMeaning(recs: Recs, ids: map<nat, JobRef>, s: Stage, env: CommitEnv, u: UnitId, k: JobKind, id: nat)
    requires IdsOk(recs, ids) && HeldIn(recs, u, k, id)
    ensures id in DroppedIds(recs, s, env) <==> SuspendedAs(recs[u], k, id) && Dropped(recs, s, env, u)
  {
    assert Refers(ids, id, u, k);
    forall u2, k2 | u2 in recs && k2 in recs[u2].suspends && recs[u2].suspends[k2].id == id ensures u2 == u && k2 == k {
      assert HeldIn(recs, u2, k2, id);
      assert Refers(ids, id, u2, k2);
    }
  }

  lemma DroppedKnown(recs: Recs, ids: map<nat, JobRef>, s: Stage, env: CommitEnv, id: nat)
    requires IdsOk(recs, ids) && id in DroppedIds(recs, s, env)
    ensures id in ids
  {
    var u, k :| u in recs && Dropped(recs, s, env, u) && k in recs[u].suspends && recs[u].suspends[k].id == id;
    OwnedBy(recs, ids, u, k, id);
  }

  lemma OwnedBy(recs: Recs, ids: map<nat, JobRef>, u: UnitId, k: JobKind, id: nat)
    requires IdsOk(recs, ids) && HeldIn(recs, u, k, id)
    ensures id in ids && ids[id] == JobRef(u, k)
  {
    assert Refers(ids, id, u, k);
  }

  /** The ids after isolation and merging, before the reshuffle. */
  function StagedIds(recs: Recs, ids: map<nat, JobRef>, s: Stage, env: CommitEnv): map<nat, JobRef> {
    ids + AddedIds(recs, s, env) - DroppedIds(recs, s, env)
  }

  lemma StagedRefers(recs: Recs, ids: map<nat, JobRef>, s: Stage, env: CommitEnv, u: UnitId, k: JobKind, id: nat)
    requires IdsOk(recs, ids) && StageOk(s) && ids.Keys !! s.ids.Keys
    ensures Refers(StagedIds(recs, ids, s, env), id, u, k)
      <==> Kept(recs, s, env, u, k, id) || Added(recs, s, env, u, k, id)
  {
    AddedRefers(recs, s, env, u, k, id);
    assert Refers(ids, id, u, k) <==> HeldIn(recs, u, k, id);
    if HeldIn(recs, u, k, id) {
      DroppedMeaning(recs, ids, s, env, u, k, id);
    }
    if id in DroppedIds(recs, s, env) {
      DroppedKnown(recs, ids, s, env, id);
    }
  }

  lemma StagedApart(recs: Recs, s: Stage, env: CommitEnv, u: UnitId)
    requires CanCommit(recs, s, env, u) && (u in recs ==> TriggerApart(recs[u]))
    ensures Staged(recs, s, env, u).Ok? && TriggerApart(Staged(recs, s, env, u).value)
  {
    StagedShape(recs, s, env, u);
    var r := Staged(recs, s, env, u).value;
    if r.trigger.Some? && u in s.units {
      forall k | k in r.suspends ensures r.suspends[k].id != r.trigger.value.id {
        assert Listed(r.suspends, k, r.suspends[k].id);
        StagedLists(recs, s, env, u, k, r.suspends[k].id);
      }
    }
  }

  lemma StagedIdsOk(recs: Recs, ids: map<nat, JobRef>, s: Stage, env: CommitEnv)
    requires IdsOk(recs, ids) && StageOk(s) && ids.Keys !! s.ids.Keys && AllCanCommit(recs, s, env)
    ensures StageAll(recs, s, env).Ok?
    ensures IdsOk(StageAll(recs, s, env).value, StagedIds(recs, ids, s, env))
  {
    StageAllRecs(recs, s, env);
    var recs1 := StageAll(recs, s, env).value;
    var ids1 := StagedIds(recs, ids, s, env);
    forall u, k, id ensures Refers(ids1, id, u, k) <==> HeldIn(recs1, u, k, id) {
      StagedRefers(recs, ids, s, env, u, k, id);
      if u in recs1 {
        StagedHolds(recs, s, env, u, k, id);
      }
    }
    forall u | u in recs1 ensures TriggerApart(recs1[u]) {
      StagedApart(recs, s, env, u);
    }
  }

  // ----- the reshuffle -----

  /** The suspended job of kind `k` that the reshuffle merges away. */
  predicate MergedAway(r: R.Rec, us: ActiveState, k: JobKind, id: nat) {
    r.dirty && !r.order && SuspendedAs(r, k, id) && k !in R.NormalForm(r.suspends, us)
  }

  lemma MergedMeaning(recs: Recs, ids: map<nat, JobRef>, env: CommitEnv, u: UnitId, k: JobKind, id: nat)
    requires IdsOk(recs, ids) && HeldIn(recs, u, k, id)
    ensures id in MergedIds(recs, env) <==> MergedAway(recs[u], ActiveOf(env, u), k, id)
  {
    OwnedBy(recs, ids, u, k, id);
    forall u2, k2 | u2 in recs && k2 in recs[u2].suspends && recs[u2].suspends[k2].id == id ensures u2 == u && k2 == k {
      OwnedBy(recs, ids, u2, k2, id);
    }
  }

  /** `r'` is `r` after its reshuffle, as far as jobs go. */
  predicate ShapedBy(r: R.Rec, r': R.Rec, us: ActiveState) {
    && r'.trigger == r.trigger && (r.dirty ==> !r.order)
    && r'.suspends == if r.dirty then R.NormalForm(r.suspends, us) else r.suspends
  }

  lemma ReshuffledShape(recs: Recs, s: Stage, env: CommitEnv, u: UnitId)
    requires CanCommit(recs, s, env, u) && CommittedRec(recs, s, env, u).Ok?
    ensures Staged(recs, s, env, u).Ok?
    ensures ShapedBy(Staged(recs, s, env, u).value, CommittedRec(recs, s, env, u).value, ActiveOf(env, u))
  {
    StagedShape(recs, s, env, u);
    CommittedRecMeaning(recs, s, env, u);
    R.NormalFormMeaning(map[], ActiveOf(env, u));
  }

  /** A record holds after its reshuffle what it held, less what was merged away. */
  lemma ReshuffledHolds(r: R.Rec, r': R.Rec, us: ActiveState, k: JobKind, id: nat)
    requires ShapedBy(r, r', us)
    ensures TriggerApart(r) ==> TriggerApart(r')
    ensures Holds(r', k, id) <==> Holds(r, k, id) && (TriggeredAs(r, k, id) || !MergedAway(r, us, k, id))
  {
    if TriggerApart(r) {
      ReshuffledApart(r, r', us);
    }
    if r.dirty {
      NormalLists(r.suspends, us, k, id);
    }
    assert Holds(r', k, id) <==> TriggeredAs(r', k, id) || Listed(r'.suspends, k, id);
    assert Holds(r, k, id) <==> TriggeredAs(r, k, id) || Listed(r.suspends, k, id);
  }

  lemma NormalLists(s: R.Suspends, us: ActiveState, k: JobKind, id: nat)
    ensures Listed(R.NormalForm(s, us), k, id) <==> Listed(s, k, id) && k in R.NormalForm(s, us)
  {
  }

  lemma ReshuffledApart(r: R.Rec, r': R.Rec, us: ActiveState)
    requires ShapedBy(r, r', us) && TriggerApart(r)
    ensures TriggerApart(r')
  {
    assert forall k :: k in r'.suspends ==> k in r.suspends && r'.suspends[k] == r.suspends[k];
  }

  predicate ShapedTo(recs1: Recs, recs2: Recs, c: Recs, env: CommitEnv) {
    && recs1.Keys == c.Keys && recs2.Keys <= c.Keys
    && (forall u :: u in c ==> ShapedBy(recs1[u], c[u], ActiveOf(env, u)))
    && (forall u :: u in recs2 ==> recs2[u] == c[u])
    && (forall u :: u in c && u !in recs2 ==> IsEmptyRec(c[u]))
  }

  lemma ReshuffledKeeps(recs1: Recs, recs2: Recs, c: Recs, ids1: map<nat, JobRef>, env: CommitEnv, u: UnitId, k: JobKind, id: nat)
    requires IdsOk(recs1, ids1) && ShapedTo(recs1, recs2, c, env)
    ensures HeldIn(recs2, u, k, id) <==> HeldIn(recs1, u, k, id) && id !in MergedIds(recs1, env)
    ensures u in recs2 ==> TriggerApart(recs2[u])
  {
    if u in recs1 {
      ReshuffledHolds(recs1[u], c[u], ActiveOf(env, u), k, id);
      if HeldIn(recs1, u, k, id) {
        MergedMeaning(recs1, ids1, env, u, k, id);
      }
    }
  }

  lemma ReshuffledIdsOk(recs1: Recs, recs2: Recs, c: Recs, ids1: map<nat, JobRef>, env: CommitEnv)
    requires IdsOk(recs1, ids1) && ShapedTo(recs1, recs2, c, env)
    ensures IdsOk(recs2, ids1 - MergedIds(recs1, env))
  {
    forall u, k, id
      ensures HeldIn(recs2, u, k, id) <==> HeldIn(recs1, u, k, id) && id !in MergedIds(recs1, env)
      ensures u in recs2 ==> TriggerApart(recs2[u])
    {
      ReshuffledKeeps(recs1, recs2, c, ids1, env, u, k, id);
    }
    IdsShrink(recs1, recs2, ids1, MergedIds(recs1, env));
  }

  /** `recs1` and `c` are the records before and after their reshuffle. */
  predicate Computed(recs: Recs, recs1: Recs, c: Recs, s: Stage, env: CommitEnv) {
    && recs1.Keys == AllUnits(recs, s) == c.Keys
    && (forall u :: u in recs1 ==> Staged(recs, s, env, u) == Ok(recs1[u]))
    && (forall u :: u in c ==> CommittedRec(recs, s, env, u) == Ok(c[u]))
  }

  lemma ShapedOne(recs: Recs, recs1: Recs, c: Recs, s: Stage, env: CommitEnv, u: UnitId)
    requires AllCanCommit(recs, s, env) && Computed(recs, recs1, c, s, env) && u in c
    ensures ShapedBy(recs1[u], c[u], ActiveOf(env, u))
  {
    ReshuffledShape(recs, s, env, u);
  }

  lemma CommittedOne(recs: Recs, recs1: Recs, recs2: Recs, c: Recs, s: Stage, env: CommitEnv, u: UnitId)
    requires CommittedTo(recs, recs2, s, env) && Computed(recs, recs1, c, s, env)
    ensures u in recs2 ==> u in c && recs2[u] == c[u]
    ensures u in c && u !in recs2 ==> IsEmptyRec(c[u])
  {
    assert u in c && u !in recs2 ==> u in AllUnits(recs, s) - recs2.Keys;
  }

  lemma CommittedShapes(recs: Recs, recs1: Recs, recs2: Recs, c: Recs, s: Stage, env: CommitEnv)
    requires AllCanCommit(recs, s, env) && CommittedTo(recs, recs2, s, env) && Computed(recs, recs1, c, s, env)
    ensures ShapedTo(recs1, recs2, c, env)
  {
    var facts := set u | u in c && u in recs1 && ShapedBy(recs1[u], c[u], ActiveOf(env, u));
    forall u | u in c ensures u in facts {
      ShapedOne(recs, recs1, c, s, env, u);
    }
    forall u
      ensures u in recs2 ==> u in c && recs2[u] == c[u]
      ensures u in c && u !in recs2 ==> IsEmptyRec(c[u])
    {
      CommittedOne(recs, recs1, recs2, c, s, env, u);
    }
  }

  lemma IdsShrink(recs1: Recs, recs2: Recs, ids1: map<nat, JobRef>, gone: set<nat>)
    requires IdsOk(recs1, ids1)
    requires forall u, k, id :: HeldIn(recs2, u, k, id) <==> HeldIn(recs1, u, k, id) && id !in gone
    requires forall u :: u in recs2 ==> TriggerApart(recs2[u])
    ensures IdsOk(recs2, ids1 - gone)
  {
    forall u, k, id ensures Refers(ids1 - gone, id, u, k) <==> HeldIn(recs2, u, k, id) {
      assert Refers(ids1, id, u, k) <==> HeldIn(recs1, u, k, id);
    }
  }

  // ----- the whole commit -----

  lemma AllReady(t: Tab, s: Stage, env: CommitEnv)
    requires TabInv(t) && StageOk(s) && t.ids.Keys !! s.ids.Keys
    ensures AllCanCommit(t.recs, s, env)
  {
    forall u | u in AllUnits(t.recs, s) ensures CanCommit(t.recs, s, env, u) {
      if u in s.units {
        FreshStage(t, s, u);
      }
    }
  }

  lemma CommitIds(t: Tab, s: Stage, env: CommitEnv, recs2: Recs)
    requires TabInv(t) && StageOk(s) && t.ids.Keys !! s.ids.Keys && !IsolationAborts(t.recs, s, env)
    requires AllCanCommit(t.recs, s, env) && CommittedTo(t.recs, recs2, s, env)
    ensures StageAll(t.recs, s, env).Ok?
    ensures
      var gone := DroppedIds(t.recs, s, env) + MergedIds(StageAll(t.recs, s, env).value, env);
      IdsOk(recs2, t.ids + AddedIds(t.recs, s, env) - gone)
  {
    StagedIdsOk(t.recs, t.ids, s, env);
    StageAllRecs(t.recs, s, env);
    var recs1 := StageAll(t.recs, s, env).value;
    var c := CommitTargets(t.recs, s, env, []);
    CommittedShapes(t.recs, recs1, recs2, c, s, env);
    ReshuffledIdsOk(recs1, recs2, c, StagedIds(t.recs, t.ids, s, env), env);
    GoneTwice(t.ids + AddedIds(t.recs, s, env), DroppedIds(t.recs, s, env), MergedIds(recs1, env));
  }

  lemma GoneTwice(ids: map<nat, JobRef>, a: set<nat>, b: set<nat>)
    ensures ids - (a + b) == ids - a - b
  {
  }

  /** A commit is refused exactly when an id is used twice; it aborts exactly when
      isolation drops the job that was about to interrupt an unpaused unit's trigger;
      otherwise every unit ends up with its own committed record and the invariant
      holds, for every order in which the units are visited. */
  lemma CommitInv(t: Tab, s: Stage, env: CommitEnv, order: seq<UnitId>)
    requires TabInv(t) && StageOk(s) && Enumerates(order, AllUnits(t.recs, s))
    ensures Commit(t, s, env, order) == Ok(Refused) <==> !(t.ids.Keys !! s.ids.Keys)
    ensures Commit(t, s, env, order).Panic? <==> t.ids.Keys !! s.ids.Keys && IsolationAborts(t.recs, s, env)
    ensures Commit(t, s, env, order).Ok? && Commit(t, s, env, order).value.Committed? ==>
      var t' := Commit(t, s, env, order).value.tab;
      TabInv(t') && CommittedTo(t.recs, t'.recs, s, env)
  {
    if t.ids.Keys !! s.ids.Keys {
      AllReady(t, s, env);
      if IsolationAborts(t.recs, s, env) {
        CommitCoreAborts(t, s, env, order);
      } else {
        CommitCore(t, s, env, order);
        var recs1 := StageAll(t.recs, s, env).value;
        var t2 := ReshuffleUnits(t.(recs := recs1, sync := false), env, order).value;
        CommitIds(t, s, env, t2.recs);
      }
    }
  }

  /** The order in which the hash maps are walked is immaterial: the jobs, their ids
      and the reported changes are the same. */
  lemma CommitOrderIrrelevant(t: Tab, s: Stage, env: CommitEnv, order1: seq<UnitId>, order2: seq<UnitId>)
    requires TabInv(t) && StageOk(s)
    requires Enumerates(order1, AllUnits(t.recs, s)) && Enumerates(order2, AllUnits(t.recs, s))
    requires Commit(t, s, env, order1).Ok? && Commit(t, s, env, order1).value.Committed?
    ensures Commit(t, s, env, order2).Ok? && Commit(t, s, env, order2).value.Committed?
    ensures
      var (c1, c2) := (Commit(t, s, env, order1).value, Commit(t, s, env, order2).value);
      c1.tab.recs == c2.tab.recs && c1.tab.ids == c2.tab.ids && c1.changes == c2.changes
  {
    CommitInv(t, s, env, order1);
    CommitInv(t, s, env, order2);
    CommittedUnique(t.recs, Commit(t, s, env, order1).value.tab.recs, Commit(t, s, env, order2).value.tab.recs, s, env);
  }

  lemma CommittedUnique(recs: Recs, recs1: Recs, recs2: Recs, s: Stage, env: CommitEnv)
    requires CommittedTo(recs, recs1, s, env) && CommittedTo(recs, recs2, s, env)
    ensures recs1 == recs2
  {
    forall u ensures u in recs1 <==> u in recs2 {
      if u in AllUnits(recs, s) {
        assert u in recs1 || u in AllUnits(recs, s) - recs1.Keys;
        assert u in recs2 || u in AllUnits(recs, s) - recs2.Keys;
      }
    }
  }
}
