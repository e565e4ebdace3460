/** Exactly which commits drive a counter below zero, told from what is staged, what is
    suspended and which units are active (process1/src/manager/unit/job/job_stat.rs:145-177,
    job_manager.rs:234-246). */
module JobUnderflow {
  import opened Outcomes
  import opened UnitBase
  import opened JobEntry
  import opened JobExpansion
  import opened JobTableState
  import opened JobTableInvariant
  import opened JobTableCommit
  import opened JobCounts
  import C = JobTableCommitIds
  import R = JobUnitRecord
  import V = JobUnitInvariant

  /** Does the job of kind `k` give way to another of the kinds suspended beside it? A start
      or reload gives way to a restart; of a start and a reload the start gives way in an
      active unit and the reload in any other. */
  predicate Swallowed(kinds: set<JobKind>, us: ActiveState, k: JobKind) {
    Stop !in kinds &&
    if Restart in kinds then k.Start? || k.Reload?
    else
      (k.Start? && Reload in kinds && ActiveOrReloading(us)) ||
      (k.Reload? && Start in kinds && !ActiveOrReloading(us))
  }

  lemma SwallowedMeaning(s: R.Suspends, us: ActiveState, k: JobKind)
    ensures k in R.NormalForm(s, us) <==> k in s && !Swallowed(s.Keys, us, k)
    ensures k in R.NormalForm(s, us) ==> R.NormalForm(s, us)[k] == s[k]
  {
  }

  /** Two self-consistent sides of which one stops what the other does. */
  predicate Conflicting(s: R.Suspends, o: R.Suspends) {
    (Stop in s && R.HasOther(o)) || (Stop in o && R.HasOther(s))
  }

  /** The kinds that meet when staged jobs `o` are merged into suspended ones. */
  function Met(was: R.Suspends, o: R.Suspends): set<JobKind> {
    o.Keys + if Conflicting(was, o) then {} else was.Keys
  }

  /** Do the suspended jobs of the unit give way as a whole, to staged ones that conflict with
      them or to isolation? */
  predicate GivenUp(recs: Recs, s: Stage, env: CommitEnv, u: UnitId)
    requires u in recs
  {
    if u in s.units then Conflicting(recs[u].suspends, s.units[u]) else Isolated(s, env, u)
  }

  /** The kinds of the jobs of a staged unit that meet in the commit. */
  function KindsMet(recs: Recs, s: Stage, env: CommitEnv, u: UnitId): set<JobKind>
    requires u in s.units
  {
    if u in recs then Met(recs[u].suspends, s.units[u]) else s.units[u].Keys
  }

  /** The job of kind `k` is swallowed when the unit's staged and suspended jobs meet. */
  predicate SwallowedAt(recs: Recs, s: Stage, env: CommitEnv, u: UnitId, k: JobKind) {
    u in s.units && Swallowed(KindsMet(recs, s, env, u), ActiveOf(env, u), k)
  }

  /** Staged jobs that are new and swallowed at once: added and deleted by the same commit. */
  function BornDead(recs: Recs, s: Stage, env: CommitEnv): set<Item> {
    set u, k | u in s.units && k in s.units[u] &&
               !(u in recs && k in recs[u].suspends && !GivenUp(recs, s, env, u)) && SwallowedAt(recs, s, env, u, k) :: Item(u, k)
  }

  /** Suspended jobs that stay suspended. */
  function LiveKept(recs: Recs, s: Stage, env: CommitEnv): set<Item> {
    set u, k | u in recs && k in recs[u].suspends && !GivenUp(recs, s, env, u) && !SwallowedAt(recs, s, env, u, k) :: Item(u, k)
  }

  /** Suspended jobs that are deleted. */
  function LiveGone(recs: Recs, s: Stage, env: CommitEnv): set<Item> {
    set u, k | u in recs && k in recs[u].suspends && (GivenUp(recs, s, env, u) || SwallowedAt(recs, s, env, u, k)) :: Item(u, k)
  }

  function TriggerItems(recs: Recs): set<Item> {
    set u | u in recs && recs[u].trigger.Some? :: Item(u, recs[u].trigger.value.kind)
  }

  function Only(items: set<Item>, k: JobKind): set<Item> {
    set x | x in items && x.kind == k
  }

  // ----- what the commit does to each job -----

  lemma GivenUpMeaning(recs: Recs, s: Stage, env: CommitEnv, u: UnitId)
    requires AllCanCommit(recs, s, env) && u in recs
    ensures Dropped(recs, s, env, u) <==> GivenUp(recs, s, env, u)
  {
    assert CanCommit(recs, s, env, u);
    if u in s.units {
      R.ConflictWithMeaning(recs[u].suspends, s.units[u]);
    }
  }

  lemma UnionJobs(base: R.Suspends, o: R.Suspends, k: JobKind)
    ensures R.Union(base, o).Keys == base.Keys + o.Keys
    ensures k in R.Union(base, o) ==> R.Union(base, o)[k].id == if k in base then base[k].id else o[k].id
  {
  }

  lemma BaseMet(was: R.Suspends, o: R.Suspends)
    requires R.Consistent(was) && R.Consistent(o)
    ensures V.MergeBase(was, o) == if Conflicting(was, o) then map[] else was
    ensures V.MergeBase(was, o).Keys + o.Keys == Met(was, o)
  {
    R.ConflictWithMeaning(was, o);
  }

  /** What is left of the jobs that meet. */
  function Left(was: R.Suspends, o: R.Suspends, us: ActiveState): R.Suspends {
    R.NormalForm(R.Union(V.MergeBase(was, o), o), us)
  }

  lemma LeftKinds(was: R.Suspends, o: R.Suspends, us: ActiveState, k: JobKind)
    requires R.Consistent(was) && R.Consistent(o)
    ensures k in Left(was, o, us) <==> k in Met(was, o) && !Swallowed(Met(was, o), us, k)
    ensures k in Left(was, o, us) ==>
      Left(was, o, us)[k].id == if k in was && !Conflicting(was, o) then was[k].id else o[k].id
  {
    BaseMet(was, o);
    var base := V.MergeBase(was, o);
    UnionJobs(base, o, k);
    SwallowedMeaning(R.Union(base, o), us, k);
  }

  lemma CommittedIsLeft(recs: Recs, s: Stage, env: CommitEnv, u: UnitId)
    requires u in s.units
    ensures CommittedSuspends(recs, s, env, u) == Left(OldRec(recs, u).suspends, s.units[u], ActiveOf(env, u))
  {
  }

  lemma BothConsistent(recs: Recs, s: Stage, env: CommitEnv, u: UnitId)
    requires AllCanCommit(recs, s, env) && u in s.units
    ensures R.Consistent(OldRec(recs, u).suspends) && R.Consistent(s.units[u])
  {
    assert CanCommit(recs, s, env, u);
  }

  lemma KindsMetAre(recs: Recs, s: Stage, env: CommitEnv, u: UnitId)
    requires u in s.units
    ensures Met(OldRec(recs, u).suspends, s.units[u]) == KindsMet(recs, s, env, u)
  {
  }

  /** What a staged unit has suspended after the commit, kind by kind, and under which id. */
  lemma CommittedKind(recs: Recs, s: Stage, env: CommitEnv, u: UnitId, k: JobKind)
    requires AllCanCommit(recs, s, env) && u in s.units
    ensures k in CommittedSuspends(recs, s, env, u) <==> k in KindsMet(recs, s, env, u) && !SwallowedAt(recs, s, env, u, k)
    ensures k in CommittedSuspends(recs, s, env, u) ==>
      CommittedSuspends(recs, s, env, u)[k].id ==
        if u in recs && k in recs[u].suspends && !GivenUp(recs, s, env, u) then recs[u].suspends[k].id else s.units[u][k].id
  {
    CommittedIsLeft(recs, s, env, u);
    BothConsistent(recs, s, env, u);
    KindsMetAre(recs, s, env, u);
    LeftKinds(OldRec(recs, u).suspends, s.units[u], ActiveOf(env, u), k);
  }

  // ----- the ids and the jobs -----

  /** A finite set of ids that is in step with a set of jobs. */
  lemma {:induction false} SameSize(ids: set<nat>, items: set<Item>, f: map<Item, nat>)
    requires items <= f.Keys && forall x :: x in items ==> f[x] in ids
    requires forall x, y :: x in items && y in items && x != y ==> f[x] != f[y]
    requires forall id :: id in ids ==> exists x :: x in items && f[x] == id
    ensures |ids| == |items|
  {
    if items == {} {
      assert ids == {};
    } else {
      var x :| x in items;
      forall id | id in ids - {f[x]} ensures exists y :: y in items - {x} && f[y] == id {
        var y :| y in items && f[y] == id;
        assert y in items - {x};
      }
      SameSize(ids - {f[x]}, items - {x}, f);
      assert ids == (ids - {f[x]}) + {f[x]} && items == (items - {x}) + {x};
    }
  }

  /** The jobs held after the commit. */
  lemma HeldAfter(recs: Recs, recs': Recs, s: Stage, env: CommitEnv, u: UnitId, k: JobKind, id: nat)
    requires AllCanCommit(recs, s, env) && CommittedTo(recs, recs', s, env) && u in AllUnits(recs, s)
    ensures HeldIn(recs', u, k, id) <==>
      C.Listed(CommittedSuspends(recs, s, env, u), k, id) || C.TriggeredAs(OldRec(recs, u), k, id)
  {
    var r := CommittedIs(recs, recs', s, env, u);
    assert Holds(r, k, id) <==> C.Listed(CommittedSuspends(recs, s, env, u), k, id) || C.TriggeredAs(OldRec(recs, u), k, id);
  }

  lemma CommittedIs(recs: Recs, recs': Recs, s: Stage, env: CommitEnv, u: UnitId) returns (r: R.Rec)
    requires AllCanCommit(recs, s, env) && CommittedTo(recs, recs', s, env) && u in AllUnits(recs, s)
    ensures if u in recs' then recs'[u] == r else IsEmptyRec(r)
    ensures r.suspends == CommittedSuspends(recs, s, env, u) && r.trigger == OldRec(recs, u).trigger
  {
    assert CanCommit(recs, s, env, u);
    CommittedRecMeaning(recs, s, env, u);
    PlaceOf(recs, recs', s, env, u);
    r := CommittedRec(recs, s, env, u).value;
  }

  /** A new staged job is held after the commit exactly when nothing swallows it. */
  lemma AddedHeld(recs: Recs, recs': Recs, ids: Ids, s: Stage, env: CommitEnv, u: UnitId, k: JobKind)
    requires AllCanCommit(recs, s, env) && CommittedTo(recs, recs', s, env) && IdsOk(recs, ids)
    requires u in s.units && k in s.units[u] && s.units[u][k].id !in ids
    requires !(u in recs && k in recs[u].suspends && !GivenUp(recs, s, env, u))
    ensures HeldIn(recs', u, k, s.units[u][k].id) <==> !SwallowedAt(recs, s, env, u, k)
  {
    var id := s.units[u][k].id;
    HeldAfter(recs, recs', s, env, u, k, id);
    CommittedKind(recs, s, env, u, k);
    assert Refers(ids, id, u, k) <==> HeldIn(recs, u, k, id);
  }

  /** A suspended job is held after the commit exactly when it neither gives way with all
      others nor is swallowed. */
  lemma SuspendedHeld(recs: Recs, recs': Recs, ids: Ids, s: Stage, env: CommitEnv, u: UnitId, k: JobKind)
    requires AllCanCommit(recs, s, env) && CommittedTo(recs, recs', s, env) && IdsOk(recs, ids)
    requires u in recs && k in recs[u].suspends && (u in s.units && k in s.units[u] ==> s.units[u][k].id !in ids)
    ensures HeldIn(recs', u, k, recs[u].suspends[k].id) <==> !GivenUp(recs, s, env, u) && !SwallowedAt(recs, s, env, u, k)
  {
    var id := recs[u].suspends[k].id;
    HeldAfter(recs, recs', s, env, u, k, id);
    GivenUpMeaning(recs, s, env, u);
    assert HeldIn(recs, u, k, id);
    assert Refers(ids, id, u, k) && TriggerApart(recs[u]);
    if u in s.units {
      CommittedKind(recs, s, env, u, k);
    }
  }

  // ----- counting them -----

  /** A commit that was carried out: `adds` are the ids it adds, `gone` those it deletes. */
  ghost predicate Carried(t: Tab, s: Stage, env: CommitEnv, recs': Recs, adds: Ids, gone: set<nat>) {
    && TabInv(t) && StageOk(s) && AllCanCommit(t.recs, s, env) && CommittedTo(t.recs, recs', s, env)
    && t.ids.Keys !! s.ids.Keys && adds == AddedIds(t.recs, s, env) && IdsOk(recs', t.ids + adds - gone)
  }

  lemma StagedJob(t: Tab, s: Stage, env: CommitEnv, recs': Recs, adds: Ids, gone: set<nat>, u: UnitId, k: JobKind)
    requires Carried(t, s, env, recs', adds, gone) && u in s.units && k in s.units[u]
    ensures Refers(s.ids, s.units[u][k].id, u, k)
    ensures Refers(adds, s.units[u][k].id, u, k) <==> !(u in t.recs && k in t.recs[u].suspends && !GivenUp(t.recs, s, env, u))
    ensures Item(u, k) in BornDead(t.recs, s, env) <==> s.units[u][k].id in adds && s.units[u][k].id in gone
  {
    var id := s.units[u][k].id;
    assert Refers(s.ids, id, u, k);
    if u in t.recs {
      GivenUpMeaning(t.recs, s, env, u);
    }
    C.AddedRefers(t.recs, s, env, u, k, id);
    assert Refers(t.ids + adds - gone, id, u, k) <==> HeldIn(recs', u, k, id);
    if id in adds {
      AddedHeld(t.recs, recs', t.ids, s, env, u, k);
    }
  }

  /** A live suspended job keeps its id apart from those staged. */
  lemma LiveFresh(t: Tab, s: Stage, u: UnitId, k: JobKind)
    requires TabInv(t) && StageOk(s) && t.ids.Keys !! s.ids.Keys && u in t.recs && k in t.recs[u].suspends
    ensures Refers(t.ids, t.recs[u].suspends[k].id, u, k)
    ensures u in s.units && k in s.units[u] ==> s.units[u][k].id !in t.ids
  {
    assert HeldIn(t.recs, u, k, t.recs[u].suspends[k].id);
    if u in s.units && k in s.units[u] {
      assert Refers(s.ids, s.units[u][k].id, u, k);
    }
  }

  lemma LiveJob(t: Tab, s: Stage, env: CommitEnv, recs': Recs, adds: Ids, gone: set<nat>, u: UnitId, k: JobKind)
    requires Carried(t, s, env, recs', adds, gone) && u in t.recs && k in t.recs[u].suspends
    ensures Refers(t.ids, t.recs[u].suspends[k].id, u, k)
    ensures t.recs[u].suspends[k].id in gone <==> GivenUp(t.recs, s, env, u) || SwallowedAt(t.recs, s, env, u, k)
  {
    var id := t.recs[u].suspends[k].id;
    LiveFresh(t, s, u, k);
    LiveGoneIff(t.recs, recs', t.ids, adds, gone, u, k, id);
    SuspendedHeld(t.recs, recs', t.ids, s, env, u, k);
  }

  lemma LiveGoneIff(recs: Recs, recs': Recs, ids: Ids, adds: Ids, gone: set<nat>, u: UnitId, k: JobKind, id: nat)
    requires IdsOk(recs', ids + adds - gone) && Refers(ids, id, u, k) && (id in adds ==> Refers(adds, id, u, k))
    ensures id in gone <==> !HeldIn(recs', u, k, id)
  {
    assert Refers(ids + adds - gone, id, u, k) <==> HeldIn(recs', u, k, id);
  }

  lemma TriggerJob(t: Tab, s: Stage, env: CommitEnv, recs': Recs, adds: Ids, gone: set<nat>, u: UnitId)
    requires Carried(t, s, env, recs', adds, gone) && u in t.recs && t.recs[u].trigger.Some?
    ensures Refers(t.ids, t.recs[u].trigger.value.id, u, t.recs[u].trigger.value.kind)
    ensures t.recs[u].trigger.value.id !in gone
  {
    var j := t.recs[u].trigger.value;
    assert HeldIn(t.recs, u, j.kind, j.id);
    assert Refers(t.ids, j.id, u, j.kind);
    HeldAfter(t.recs, recs', s, env, u, j.kind, j.id);
    assert Refers(t.ids + adds - gone, j.id, u, j.kind) <==> HeldIn(recs', u, j.kind, j.id);
  }

  function StagedIdOf(s: Stage, items: set<Item>): map<Item, nat>
    requires forall x :: x in items ==> x.unit in s.units && x.kind in s.units[x.unit]
  {
    map x | x in items :: s.units[x.unit][x.kind].id
  }

  function LiveIdOf(recs: Recs, items: set<Item>): map<Item, nat>
    requires forall x :: x in items ==> x.unit in recs && x.kind in recs[x.unit].suspends
  {
    map x | x in items :: recs[x.unit].suspends[x.kind].id
  }

  /** The ids both added and deleted are those of the jobs swallowed at once; `part` picks out
      those of some kinds. */
  lemma BornSize(t: Tab, s: Stage, env: CommitEnv, recs': Recs, adds: Ids, gone: set<nat>, items: set<Item>, ids: set<nat>, ks: set<JobKind>)
    requires Carried(t, s, env, recs', adds, gone)
    requires items == (set x | x in BornDead(t.recs, s, env) && x.kind in ks)
    requires ids == (set id | id in adds && id in gone && adds[id].kind in ks)
    ensures |ids| == |items|
  {
    var f := StagedIdOf(s, items);
    forall x | x in items ensures Refers(s.ids, f[x], x.unit, x.kind) && f[x] in ids {
      StagedJob(t, s, env, recs', adds, gone, x.unit, x.kind);
    }
    forall id | id in ids ensures exists x :: x in items && f[x] == id {
      var u, k := adds[id].unit, adds[id].kind;
      assert Refers(s.ids, id, u, k);
      StagedJob(t, s, env, recs', adds, gone, u, k);
      assert Item(u, k) in items && f[Item(u, k)] == id;
    }
    SameSize(ids, items, f);
  }

  predicate IsSuspended(t: Tab, id: nat) {
    id in t.ids && t.ids[id].unit in t.recs && C.SuspendedAs(t.recs[t.ids[id].unit], t.ids[id].kind, id)
  }

  function ItemOf(ref: JobRef): Item {
    Item(ref.unit, ref.kind)
  }

  /** Ids of suspended jobs and the jobs themselves. */
  lemma SuspendedSize(t: Tab, items: set<Item>, ids: set<nat>)
    requires TabInv(t) && forall x :: x in items ==> x.unit in t.recs && x.kind in t.recs[x.unit].suspends
    requires forall x :: x in items ==> LiveIdOf(t.recs, items)[x] in ids
    requires forall id :: id in ids ==> IsSuspended(t, id) && ItemOf(t.ids[id]) in items
    ensures |ids| == |items|
  {
    var f := LiveIdOf(t.recs, items);
    forall x | x in items ensures Refers(t.ids, f[x], x.unit, x.kind) {
      assert HeldIn(t.recs, x.unit, x.kind, f[x]);
    }
    forall id | id in ids ensures exists x :: x in items && f[x] == id {
      assert f[ItemOf(t.ids[id])] == id;
    }
    SameSize(ids, items, f);
  }

  /** A live job is suspended or its unit's trigger. */
  lemma LiveIs(t: Tab, id: nat)
    requires TabInv(t) && id in t.ids
    ensures t.ids[id].unit in t.recs
    ensures IsSuspended(t, id) <==> !C.TriggeredAs(t.recs[t.ids[id].unit], t.ids[id].kind, id)
  {
    var u, k := t.ids[id].unit, t.ids[id].kind;
    assert Refers(t.ids, id, u, k);
    assert HeldIn(t.recs, u, k, id);
    assert TriggerApart(t.recs[u]);
  }

  /** The live ids deleted are those of the suspended jobs that give way. */
  lemma GoneSize(t: Tab, s: Stage, env: CommitEnv, recs': Recs, adds: Ids, gone: set<nat>)
    requires Carried(t, s, env, recs', adds, gone)
    ensures |Among(t.ids, gone)| == |LiveGone(t.recs, s, env)|
  {
    var items, ids := LiveGone(t.recs, s, env), Among(t.ids, gone).Keys;
    forall x | x in items ensures LiveIdOf(t.recs, items)[x] in ids {
      LiveJob(t, s, env, recs', adds, gone, x.unit, x.kind);
    }
    forall id | id in ids ensures IsSuspended(t, id) && ItemOf(t.ids[id]) in items {
      LiveIs(t, id);
      var u, k := t.ids[id].unit, t.ids[id].kind;
      if t.recs[u].trigger.Some? {
        TriggerJob(t, s, env, recs', adds, gone, u);
      }
      LiveJob(t, s, env, recs', adds, gone, u, k);
    }
    SuspendedSize(t, items, ids);
    assert |ids| == |Among(t.ids, gone)|;
  }

  /** Which live jobs stay, told by their ids. */
  ghost predicate Stays(t: Tab, s: Stage, env: CommitEnv, gone: set<nat>) {
    && (forall u, k :: u in t.recs && k in t.recs[u].suspends ==>
          (Item(u, k) in LiveKept(t.recs, s, env) <==> t.recs[u].suspends[k].id !in gone))
    && (forall u :: u in t.recs && t.recs[u].trigger.Some? ==> t.recs[u].trigger.value.id !in gone)
  }

  lemma KeptId(t: Tab, s: Stage, env: CommitEnv, recs': Recs, adds: Ids, gone: set<nat>, u: UnitId, k: JobKind)
    requires Carried(t, s, env, recs', adds, gone) && u in t.recs && k in t.recs[u].suspends
    ensures Item(u, k) in LiveKept(t.recs, s, env) <==> t.recs[u].suspends[k].id !in gone
  {
    LiveJob(t, s, env, recs', adds, gone, u, k);
  }

  lemma CarriedStays(t: Tab, s: Stage, env: CommitEnv, recs': Recs, adds: Ids, gone: set<nat>)
    requires Carried(t, s, env, recs', adds, gone)
    ensures Stays(t, s, env, gone)
  {
    forall u, k | u in t.recs && k in t.recs[u].suspends
      ensures Item(u, k) in LiveKept(t.recs, s, env) <==> t.recs[u].suspends[k].id !in gone
    {
      KeptId(t, s, env, recs', adds, gone, u, k);
    }
    forall u | u in t.recs && t.recs[u].trigger.Some? ensures t.recs[u].trigger.value.id !in gone {
      TriggerJob(t, s, env, recs', adds, gone, u);
    }
  }

  /** The live ids of a kind that stay: those of suspended jobs, and those of triggers. */
  lemma KeptSize(t: Tab, s: Stage, env: CommitEnv, gone: set<nat>, k: JobKind)
    requires TabInv(t) && Stays(t, s, env, gone)
    ensures CountOf(t.ids - gone, k) == |Only(LiveKept(t.recs, s, env), k)| + |Only(TriggerItems(t.recs), k)|
  {
    var all := OfKind(t.ids - gone, k);
    var a := set id | id in all && IsSuspended(t, id);
    KeptSuspends(t, s, env, gone, k, a);
    KeptTriggers(t, s, env, gone, k, all - a);
    assert all == a + (all - a);
  }

  lemma SuspendedListed(t: Tab, u: UnitId, k: JobKind)
    requires TabInv(t) && u in t.recs && k in t.recs[u].suspends
    ensures Refers(t.ids, t.recs[u].suspends[k].id, u, k)
  {
    assert HeldIn(t.recs, u, k, t.recs[u].suspends[k].id);
  }

  lemma KeptIn(t: Tab, s: Stage, env: CommitEnv, gone: set<nat>, k: JobKind, x: Item)
    requires TabInv(t) && Stays(t, s, env, gone) && x in Only(LiveKept(t.recs, s, env), k)
    ensures x.unit in t.recs && x.kind in t.recs[x.unit].suspends
    ensures t.recs[x.unit].suspends[x.kind].id in OfKind(t.ids - gone, k) && IsSuspended(t, t.recs[x.unit].suspends[x.kind].id)
  {
    SuspendedListed(t, x.unit, x.kind);
  }

  lemma KeptOut(t: Tab, s: Stage, env: CommitEnv, gone: set<nat>, k: JobKind, id: nat)
    requires Stays(t, s, env, gone) && id in OfKind(t.ids - gone, k) && IsSuspended(t, id)
    ensures ItemOf(t.ids[id]) in Only(LiveKept(t.recs, s, env), k)
  {
    var u, l := t.ids[id].unit, t.ids[id].kind;
    assert t.recs[u].suspends[l].id == id;
  }

  lemma KeptSuspends(t: Tab, s: Stage, env: CommitEnv, gone: set<nat>, k: JobKind, ids: set<nat>)
    requires TabInv(t) && Stays(t, s, env, gone)
    requires ids == set id | id in OfKind(t.ids - gone, k) && IsSuspended(t, id)
    ensures |ids| == |Only(LiveKept(t.recs, s, env), k)|
  {
    var items := Only(LiveKept(t.recs, s, env), k);
    forall x | x in items
      ensures x.unit in t.recs && x.kind in t.recs[x.unit].suspends && t.recs[x.unit].suspends[x.kind].id in ids
    {
      KeptIn(t, s, env, gone, k, x);
    }
    forall id | id in ids ensures IsSuspended(t, id) && ItemOf(t.ids[id]) in items {
      KeptOut(t, s, env, gone, k, id);
    }
    SuspendedSize(t, items, ids);
  }

  function TriggerIdOf(recs: Recs, items: set<Item>): map<Item, nat>
    requires items <= TriggerItems(recs)
  {
    map x | x in items :: recs[x.unit].trigger.value.id
  }

  lemma TriggerIs(t: Tab, x: Item)
    requires TabInv(t) && x in TriggerItems(t.recs)
    ensures Refers(t.ids, t.recs[x.unit].trigger.value.id, x.unit, x.kind)
    ensures !IsSuspended(t, t.recs[x.unit].trigger.value.id)
  {
    var j := t.recs[x.unit].trigger.value;
    assert HeldIn(t.recs, x.unit, j.kind, j.id);
    LiveIs(t, j.id);
  }

  lemma KeptTriggers(t: Tab, s: Stage, env: CommitEnv, gone: set<nat>, k: JobKind, ids: set<nat>)
    requires TabInv(t) && Stays(t, s, env, gone)
    requires ids == set id | id in OfKind(t.ids - gone, k) && !IsSuspended(t, id)
    ensures |ids| == |Only(TriggerItems(t.recs), k)|
  {
    var items := Only(TriggerItems(t.recs), k);
    var f := TriggerIdOf(t.recs, items);
    forall x | x in items ensures Refers(t.ids, f[x], x.unit, k) && f[x] in ids {
      TriggerIs(t, x);
    }
    forall id | id in ids ensures exists x :: x in items && f[x] == id {
      LiveIs(t, id);
      var x := ItemOf(t.ids[id]);
      assert x in items && f[x] == id;
    }
    SameSize(ids, items, f);
  }

  // ----- the exact conditions -----

  lemma CommitCarried(t: Tab, s: Stage, env: CommitEnv, order: seq<UnitId>) returns (adds: Ids, gone: set<nat>)
    requires TabInv(t) && StageOk(s) && Enumerates(order, AllUnits(t.recs, s))
    requires Commit(t, s, env, order).Ok? && Commit(t, s, env, order).value.Committed?
    ensures
      var (t', ch) := (Commit(t, s, env, order).value.tab, Commit(t, s, env, order).value.changes);
      && Carried(t, s, env, t'.recs, adds, gone) && ch.adds == adds && ch.dels == Among(t.ids + adds, gone)
      && t'.ids == t.ids + adds - gone
  {
    C.CommitInv(t, s, env, order);
    C.AllReady(t, s, env);
    adds := AddedIds(t.recs, s, env);
    gone := DroppedIds(t.recs, s, env) + MergedIds(StageAll(t.recs, s, env).value, env);
    assert Commit(t, s, env, order).value.changes.dels == Among(t.ids + adds, gone);
  }

  /** With right counters, the deletions of a commit take the counter of a kind below zero
      exactly when more new jobs of the kind are swallowed at once than jobs of the kind stay
      suspended or are triggers. */
  lemma KindUnderflowIff(t: Tab, s: Stage, env: CommitEnv, order: seq<UnitId>, k: JobKind)
    requires TabInv(t) && StageOk(s) && Enumerates(order, AllUnits(t.recs, s))
    requires Commit(t, s, env, order).Ok? && Commit(t, s, env, order).value.Committed?
    ensures CountOf(Commit(t, s, env, order).value.changes.dels, k) > CountOf(t.ids, k) <==>
      |Only(BornDead(t.recs, s, env), k)| > |Only(LiveKept(t.recs, s, env), k)| + |Only(TriggerItems(t.recs), k)|
  {
    var adds, gone := CommitCarried(t, s, env, order);
    var recs' := Commit(t, s, env, order).value.tab.recs;
    CarriedUnderflow(t, s, env, recs', adds, gone, k);
  }

  lemma CarriedUnderflow(t: Tab, s: Stage, env: CommitEnv, recs': Recs, adds: Ids, gone: set<nat>, k: JobKind)
    requires Carried(t, s, env, recs', adds, gone)
    ensures CountOf(Among(t.ids + adds, gone), k) > CountOf(t.ids, k) <==>
      |Only(BornDead(t.recs, s, env), k)| > |Only(LiveKept(t.recs, s, env), k)| + |Only(TriggerItems(t.recs), k)|
  {
    assert t.ids.Keys !! adds.Keys;
    UnderflowIff(t.ids, adds, gone, k);
    BornKind(t, s, env, recs', adds, gone, k);
    CarriedStays(t, s, env, recs', adds, gone);
    KeptSize(t, s, env, gone, k);
  }

  lemma KindSets(adds: Ids, gone: set<nat>, items: set<Item>, k: JobKind)
    ensures OfKind(Among(adds, gone), k) == set id | id in adds && id in gone && adds[id].kind in {k}
    ensures Only(items, k) == set x | x in items && x.kind in {k}
  {
  }

  lemma BornKind(t: Tab, s: Stage, env: CommitEnv, recs': Recs, adds: Ids, gone: set<nat>, k: JobKind)
    requires Carried(t, s, env, recs', adds, gone)
    ensures CountOf(Among(adds, gone), k) == |Only(BornDead(t.recs, s, env), k)|
  {
    KindSets(adds, gone, BornDead(t.recs, s, env), k);
    BornSize(t, s, env, recs', adds, gone, Only(BornDead(t.recs, s, env), k), OfKind(Among(adds, gone), k), {k});
  }

  /** The deletions in all: the new jobs swallowed at once and the suspended ones that give way. */
  lemma DeletedSize(t: Tab, s: Stage, env: CommitEnv, order: seq<UnitId>)
    requires TabInv(t) && StageOk(s) && Enumerates(order, AllUnits(t.recs, s))
    requires Commit(t, s, env, order).Ok? && Commit(t, s, env, order).value.Committed?
    ensures |Commit(t, s, env, order).value.changes.dels| == |BornDead(t.recs, s, env)| + |LiveGone(t.recs, s, env)|
  {
    var adds, gone := CommitCarried(t, s, env, order);
    var recs' := Commit(t, s, env, order).value.tab.recs;
    BornAll(t, s, env, recs', adds, gone);
    GoneSize(t, s, env, recs', adds, gone);
    AmongUnion(t.ids, adds, gone);
  }

  lemma BornAll(t: Tab, s: Stage, env: CommitEnv, recs': Recs, adds: Ids, gone: set<nat>)
    requires Carried(t, s, env, recs', adds, gone)
    ensures |Among(adds, gone)| == |BornDead(t.recs, s, env)|
  {
    var ids := Among(adds, gone).Keys;
    var ks := set x | x in BornDead(t.recs, s, env) :: x.kind;
    var ks2 := set id | id in ids :: adds[id].kind;
    assert BornDead(t.recs, s, env) == set x | x in BornDead(t.recs, s, env) && x.kind in ks + ks2;
    assert ids == set id | id in adds && id in gone && adds[id].kind in ks + ks2;
    BornSize(t, s, env, recs', adds, gone, BornDead(t.recs, s, env), ids, ks + ks2);
    assert |ids| == |Among(adds, gone)|;
  }

  lemma AmongUnion(a: Ids, b: Ids, gone: set<nat>)
    requires a.Keys !! b.Keys
    ensures |Among(a + b, gone)| == |Among(a, gone)| + |Among(b, gone)|
  {
    var u, x, y := Among(a + b, gone), Among(a, gone), Among(b, gone);
    assert u.Keys == x.Keys + y.Keys;
    assert |u.Keys| == |u| && |x.Keys| == |x| && |y.Keys| == |y|;
  }
}
