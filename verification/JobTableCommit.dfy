/** Committing the staging table: what becomes of every unit, that the invariant is
    kept, and that the order in which units are visited does not matter. */
module JobTableCommit {
  import opened Outcomes
  import opened UnitBase
  import opened JobEntry
  import opened JobTableState
  import opened JobTableIndex
  import opened JobTableInvariant
  import R = JobUnitRecord
  import V = JobUnitInvariant

  /** What expansion and verification deliver: staged, self-consistent jobs for every
      staged unit, and an id index that agrees with them. */
  ghost predicate StageOk(s: Stage) {
    && (forall u :: u in s.units ==> V.StagedJobs(s.units[u]) && R.Consistent(s.units[u]) && s.units[u] != map[])
    && (forall u, k, id :: Refers(s.ids, id, u, k) <==> u in s.units && k in s.units[u] && s.units[u][k].id == id)
  }

  // ----- one unit -----

  /** The record of a unit that is not in the table, as good as a settled one. */
  const BLANK: R.Rec := R.NEW_REC.(order := true)

  function OldRec(recs: Recs, u: UnitId): R.Rec {
    if u in recs then recs[u] else BLANK
  }

  lemma BlankSettled()
    ensures V.Settled(BLANK)
  {
    assert R.QueueOf(map[]) == [];
  }

  lemma BlankMerges(o: R.Suspends)
    requires V.StagedJobs(o) && R.Consistent(o) && o != map[]
    ensures R.MergeSuspends(R.NEW_REC, o) == R.MergeSuspends(BLANK, o)
  {
    V.MergeSuspendsShape(R.NEW_REC, o);
    V.MergeSuspendsShape(BLANK, o);
    V.MergeBaseMeaning(map[], o);
    assert V.MergeAborts(R.NEW_REC, o) <==> V.MergeAborts(BLANK, o);
    assert V.MergeBase(map[], o) == map[];
  }

  /** A unit's record after the commit. */
  function CommittedRec(recs: Recs, s: Stage, env: CommitEnv, u: UnitId): Outcome<R.Rec> {
    var r :- Staged(recs, s, env, u);
    R.ReshuffleDirty(r, ActiveOf(env, u))
  }

  /** What a unit has suspended after the commit: on a conflict the staged jobs alone,
      otherwise the union with what was suspended, both in normal form; nothing if the
      unit is isolated; and what it had otherwise. */
  function CommittedSuspends(recs: Recs, s: Stage, env: CommitEnv, u: UnitId): R.Suspends {
    var was := OldRec(recs, u).suspends;
    if u in s.units then R.NormalForm(R.Union(V.MergeBase(was, s.units[u]), s.units[u]), ActiveOf(env, u))
    else if Isolated(s, env, u) then map[]
    else was
  }

  predicate FreshFor(r: R.Rec, o: R.Suspends) {
    r.trigger.Some? ==> forall k :: k in o ==> o[k].id != r.trigger.value.id
  }

  /** What a commit makes of one unit, and exactly when it aborts at it. */
  lemma CommittedRecMeaning(recs: Recs, s: Stage, env: CommitEnv, u: UnitId)
    requires u in recs ==> V.Settled(recs[u])
    requires u in s.units ==>
      V.StagedJobs(s.units[u]) && R.Consistent(s.units[u]) && s.units[u] != map[] && FreshFor(OldRec(recs, u), s.units[u])
    requires u in recs || u in s.units
    ensures CommittedRec(recs, s, env, u).Panic? <==>
      u in recs && Isolated(s, env, u) && recs[u].interrupt && !recs[u].pause
    ensures CommittedRec(recs, s, env, u).Ok? ==>
      var r := CommittedRec(recs, s, env, u).value;
      var was := OldRec(recs, u);
      && V.Settled(r) && r.suspends == CommittedSuspends(recs, s, env, u)
      && r.trigger == was.trigger && r.retrigger == was.retrigger && r.pause == was.pause
  {
    BlankSettled();
    if u in s.units {
      var o := s.units[u];
      if u !in recs {
        BlankMerges(o);
      }
      V.MergeEntrySettles(OldRec(recs, u), o, ActiveOf(env, u));
      assert CommittedRec(recs, s, env, u) == R.MergeEntry(OldRec(recs, u), o, ActiveOf(env, u));
    } else if Isolated(s, env, u) {
      V.IsolateEntrySettles(recs[u], ActiveOf(env, u));
      assert CommittedRec(recs, s, env, u) == R.IsolateEntry(recs[u], ActiveOf(env, u));
    }
  }

  // ----- the reshuffle over all units -----

  /** The units that are still to be reshuffled and need it. */
  function PendingOf(recs: Recs, us: seq<UnitId>): set<UnitId> {
    set u | u in recs && u in us && recs[u].dirty
  }

  predicate MidRec(r: R.Rec, us: ActiveState) {
    if r.dirty then !r.ready && (R.ReshuffleDirty(r, us).Ok? ==> V.Settled(R.ReshuffleDirty(r, us).value))
    else V.Settled(r)
  }

  predicate Mid(t: Tab, env: CommitEnv, us: seq<UnitId>) {
    && (forall u :: u in t.recs ==> MidRec(t.recs[u], ActiveOf(env, u)))
    && (forall u :: u in t.recs && u !in us ==> !t.recs[u].dirty && !IsEmptyRec(t.recs[u]))
    && IndexOn(t.ix, ReadyUnits(t.recs), PendingOf(t.recs, us))
  }

  /** `Mid`, except that `u` may be left empty. */
  predicate MidButEmpty(t: Tab, env: CommitEnv, us: seq<UnitId>, u: UnitId) {
    && (forall v :: v in t.recs ==> MidRec(t.recs[v], ActiveOf(env, v)))
    && (forall v :: v in t.recs && v !in us && v != u ==> !t.recs[v].dirty && !IsEmptyRec(t.recs[v]))
    && IndexOn(t.ix, ReadyUnits(t.recs), PendingOf(t.recs, us))
    && u in t.recs && u !in us && V.Settled(t.recs[u])
  }

  lemma PutMid(t: Tab, env: CommitEnv, us: seq<UnitId>, r: R.Rec)
    requires Mid(t, env, us) && us != [] && us[0] !in us[1..] && us[0] in t.recs && t.recs[us[0]].dirty
    requires V.Settled(r)
    ensures MidButEmpty(PutRec(t, us[0], r), env, us[1..], us[0])
  {
    var u := us[0];
    var t1 := PutRec(t, u, r);
    var rest := PendingOf(t1.recs, us[1..]);
    assert forall v :: v in us <==> v == u || v in us[1..];
    assert PendingOf(t.recs, us) == rest + {u};
    assert ReadyUnits(t.recs) - {u} == ReadyUnits(t1.recs) - {u};
    BecomesPending(t.ix, ReadyUnits(t.recs), ReadyUnits(t1.recs), rest + {u}, u);
    assert rest + {u} + {u} == rest + {u};
    ReadySyncOk(t.ix, u, ReadyUnits(t1.recs), rest);
  }

  lemma SkipMid(t: Tab, env: CommitEnv, us: seq<UnitId>)
    requires Mid(t, env, us) && us != [] && us[0] !in us[1..]
    requires us[0] in t.recs ==> !t.recs[us[0]].dirty
    ensures us[0] in t.recs ==> MidButEmpty(t, env, us[1..], us[0])
    ensures us[0] !in t.recs ==> Mid(t, env, us[1..])
  {
    assert forall v :: v in us <==> v == us[0] || v in us[1..];
    assert PendingOf(t.recs, us) == PendingOf(t.recs, us[1..]);
  }

  lemma ReshuffleUnitMid(t: Tab, env: CommitEnv, us: seq<UnitId>)
    requires Mid(t, env, us) && us != [] && us[0] !in us[1..]
    ensures ReshuffleUnit(t, env, us[0]).Panic? <==>
      us[0] in t.recs && R.ReshuffleDirty(t.recs[us[0]], ActiveOf(env, us[0])).Panic?
    ensures ReshuffleUnit(t, env, us[0]).Ok? ==>
      var recs1 := ReshuffleUnit(t, env, us[0]).value.recs;
      && Mid(ReshuffleUnit(t, env, us[0]).value, env, us[1..])
      && (us[0] in t.recs ==>
            var r := R.ReshuffleDirty(t.recs[us[0]], ActiveOf(env, us[0])).value;
            recs1 == if IsEmptyRec(r) then t.recs - {us[0]} else t.recs[us[0] := r])
      && (us[0] !in t.recs ==> recs1 == t.recs)
  {
    var u := us[0];
    if u in t.recs && t.recs[u].dirty {
      ReshuffleDirtyMid(t, env, us);
    } else {
      SkipMid(t, env, us);
      if u in t.recs {
        CollectMid(t, env, us[1..], u);
        assert t.recs[u := t.recs[u]] == t.recs;
      }
    }
  }

  lemma ReshuffleDirtyMid(t: Tab, env: CommitEnv, us: seq<UnitId>)
    requires Mid(t, env, us) && us != [] && us[0] !in us[1..] && us[0] in t.recs && t.recs[us[0]].dirty
    ensures
      var e := R.ReshuffleDirty(t.recs[us[0]], ActiveOf(env, us[0]));
      && (ReshuffleUnit(t, env, us[0]).Panic? <==> e.Panic?)
      && (e.Ok? ==>
            && Mid(ReshuffleUnit(t, env, us[0]).value, env, us[1..])
            && ReshuffleUnit(t, env, us[0]).value.recs
                 == if IsEmptyRec(e.value) then t.recs - {us[0]} else t.recs[us[0] := e.value])
  {
    var u := us[0];
    var e := R.ReshuffleDirty(t.recs[u], ActiveOf(env, u));
    if e.Ok? {
      assert V.Settled(e.value);
      PutCollectMid(t, env, us, e.value);
    }
  }

  lemma PutCollectMid(t: Tab, env: CommitEnv, us: seq<UnitId>, r: R.Rec)
    requires Mid(t, env, us) && us != [] && us[0] !in us[1..] && us[0] in t.recs && t.recs[us[0]].dirty
    requires V.Settled(r)
    ensures
      var t' := Collect(PutRec(t, us[0], r), us[0]);
      Mid(t', env, us[1..]) && t'.recs == if IsEmptyRec(r) then t.recs - {us[0]} else t.recs[us[0] := r]
  {
    PutMid(t, env, us, r);
    CollectMid(PutRec(t, us[0], r), env, us[1..], us[0]);
    assert t.recs[us[0] := r] - {us[0]} == t.recs - {us[0]};
  }

  lemma CollectMid(t: Tab, env: CommitEnv, us: seq<UnitId>, u: UnitId)
    requires MidButEmpty(t, env, us, u)
    ensures Mid(Collect(t, u), env, us)
    ensures Collect(t, u).recs == if IsEmptyRec(t.recs[u]) then t.recs - {u} else t.recs
  {
    if IsEmptyRec(t.recs[u]) {
      assert !t.recs[u].ready;
      DropUnitOk(t.ix, ReadyUnits(t.recs), PendingOf(t.recs, us), u);
      assert ReadyUnits(t.recs - {u}) == ReadyUnits(t.recs) - {u};
      assert PendingOf(t.recs - {u}, us) == PendingOf(t.recs, us);
    }
  }

  /** The records left by putting `c[u]` in the place of every unit `u` of `us`. */
  predicate ReshuffledTo(recs: Recs, recs': Recs, c: Recs, us: seq<UnitId>)
    requires recs.Keys <= c.Keys
  {
    && recs'.Keys == (set u | u in recs && (u in us ==> !IsEmptyRec(c[u])))
    && (forall u :: u in recs' ==> recs'[u] == if u in us then c[u] else recs[u])
  }

  lemma ReshuffledStep(recs: Recs, recs1: Recs, recs2: Recs, c: Recs, us: seq<UnitId>)
    requires recs.Keys <= c.Keys && us != [] && us[0] !in us[1..]
    requires recs1 == if us[0] !in recs then recs else if IsEmptyRec(c[us[0]]) then recs - {us[0]} else recs[us[0] := c[us[0]]]
    requires recs1.Keys <= c.Keys && ReshuffledTo(recs1, recs2, c, us[1..])
    ensures ReshuffledTo(recs, recs2, c, us)
  {
    assert forall v :: v in us <==> v == us[0] || v in us[1..];
  }

  /** `c` gives every unit's record after its reshuffle. */
  predicate Targets(recs: Recs, c: Recs, env: CommitEnv, us: seq<UnitId>) {
    recs.Keys <= c.Keys &&
    forall u :: u in recs && u in us ==> R.ReshuffleDirty(recs[u], ActiveOf(env, u)) == Ok(c[u])
  }

  lemma TargetsStep(recs: Recs, recs1: Recs, c: Recs, env: CommitEnv, us: seq<UnitId>)
    requires Targets(recs, c, env, us) && us != [] && us[0] !in us[1..]
    requires recs1.Keys <= recs.Keys && forall u :: u in recs1 && u != us[0] ==> recs1[u] == recs[u]
    ensures Targets(recs1, c, env, us[1..])
  {
    assert forall v :: v in us <==> v == us[0] || v in us[1..];
  }

  /** When no unit's reshuffle aborts, the whole reshuffle does what the units' own
      reshuffles say, in whatever order they are visited. */
  lemma {:induction false} ReshuffleUnitsMid(t: Tab, env: CommitEnv, us: seq<UnitId>, c: Recs)
    requires Mid(t, env, us) && Distinct(us) && Targets(t.recs, c, env, us)
    ensures ReshuffleUnits(t, env, us).Ok?
    ensures Mid(ReshuffleUnits(t, env, us).value, env, [])
    ensures ReshuffledTo(t.recs, ReshuffleUnits(t, env, us).value.recs, c, us)
    decreases |us|
  {
    if us != [] {
      ReshuffleUnitMid(t, env, us);
      var t1 := ReshuffleUnit(t, env, us[0]).value;
      TargetsStep(t.recs, t1.recs, c, env, us);
      ReshuffleUnitsMid(t1, env, us[1..], c);
      ReshuffledStep(t.recs, t1.recs, ReshuffleUnits(t1, env, us[1..]).value.recs, c, us);
    }
  }

  /** A unit whose reshuffle aborts makes the whole reshuffle abort. */
  lemma {:induction false} ReshuffleUnitsAborts(t: Tab, env: CommitEnv, us: seq<UnitId>, u: UnitId)
    requires Mid(t, env, us) && Distinct(us) && u in us && u in t.recs
    requires R.ReshuffleDirty(t.recs[u], ActiveOf(env, u)).Panic?
    ensures ReshuffleUnits(t, env, us).Panic?
    decreases |us|
  {
    ReshuffleUnitMid(t, env, us);
    var e := ReshuffleUnit(t, env, us[0]);
    if e.Ok? {
      assert u in us[1..];
      ReshuffleUnitsAborts(e.value, env, us[1..], u);
    }
  }

  // ----- the whole commit -----

  lemma FreshStage(t: Tab, s: Stage, u: UnitId)
    requires IdsOk(t.recs, t.ids) && StageOk(s) && t.ids.Keys !! s.ids.Keys && u in s.units
    ensures FreshFor(OldRec(t.recs, u), s.units[u])
  {
    var r := OldRec(t.recs, u);
    if r.trigger.Some? {
      assert HeldIn(t.recs, u, r.trigger.value.kind, r.trigger.value.id);
      assert Refers(t.ids, r.trigger.value.id, u, r.trigger.value.kind);
      forall k | k in s.units[u] ensures s.units[u][k].id != r.trigger.value.id {
        assert Refers(s.ids, s.units[u][k].id, u, k);
      }
    }
  }

  predicate CanCommit(recs: Recs, s: Stage, env: CommitEnv, u: UnitId) {
    && (u in recs || u in s.units)
    && (u in recs ==> V.Settled(recs[u]) && !IsEmptyRec(recs[u]))
    && (u in s.units ==>
          V.StagedJobs(s.units[u]) && R.Consistent(s.units[u]) && s.units[u] != map[] &&
          FreshFor(OldRec(recs, u), s.units[u]))
  }

  /** The record between merging and reshuffle: disturbed, or as it was but for
      attributes merged into its jobs. */
  lemma StagedShape(recs: Recs, s: Stage, env: CommitEnv, u: UnitId)
    requires CanCommit(recs, s, env, u)
    ensures Staged(recs, s, env, u).Ok?
    ensures
      var r := Staged(recs, s, env, u).value;
      var was := OldRec(recs, u);
      && r.trigger == was.trigger
      && (r.dirty ==> !r.ready && !r.order)
      && (!r.dirty ==> u in recs && r.ready == was.ready && r.suspends.Keys == was.suspends.Keys)
      && r.suspends == (if u in s.units then R.Union(V.MergeBase(was.suspends, s.units[u]), s.units[u])
                        else if Isolated(s, env, u) then map[] else was.suspends)
  {
    BlankSettled();
    var was := OldRec(recs, u);
    if u in s.units {
      var o := s.units[u];
      if u !in recs {
        BlankMerges(o);
      }
      V.MergeSuspendsShape(was, o);
      V.MergeBaseKeeps(was, o);
      assert !V.MergeAborts(was, o);
      if o.Keys <= V.MergeBase(was.suspends, o).Keys {
        assert u in recs by {
          var k :| k in o;
          assert k in was.suspends;
        }
      }
    } else if Isolated(s, env, u) {
      V.FlushShape(was);
    }
  }

  lemma StagedMid(recs: Recs, s: Stage, env: CommitEnv, u: UnitId)
    requires CanCommit(recs, s, env, u)
    ensures Staged(recs, s, env, u).Ok? && MidRec(Staged(recs, s, env, u).value, ActiveOf(env, u))
    ensures !Staged(recs, s, env, u).value.dirty ==> !IsEmptyRec(Staged(recs, s, env, u).value)
  {
    StagedShape(recs, s, env, u);
    CommittedRecMeaning(recs, s, env, u);
    var r := Staged(recs, s, env, u).value;
    assert CommittedRec(recs, s, env, u) == R.ReshuffleDirty(r, ActiveOf(env, u));
    if !r.dirty && r.trigger.None? {
      var k :| k in OldRec(recs, u).suspends;
      assert k in r.suspends;
    }
  }

  /** All units of the two tables. */
  function AllUnits(recs: Recs, s: Stage): set<UnitId> {
    recs.Keys + s.units.Keys
  }

  predicate AllCanCommit(recs: Recs, s: Stage, env: CommitEnv) {
    forall u :: u in AllUnits(recs, s) ==> CanCommit(recs, s, env, u)
  }

  lemma StageAllRecs(recs: Recs, s: Stage, env: CommitEnv)
    requires AllCanCommit(recs, s, env)
    ensures StageAll(recs, s, env).Ok?
    ensures
      var recs1 := StageAll(recs, s, env).value;
      recs1.Keys == AllUnits(recs, s) &&
      forall u :: u in recs1 ==>
        Staged(recs, s, env, u) == Ok(recs1[u]) && MidRec(recs1[u], ActiveOf(env, u)) &&
        (!recs1[u].dirty ==> !IsEmptyRec(recs1[u]))
  {
    forall u | u in AllUnits(recs, s)
      ensures Staged(recs, s, env, u).Ok? && MidRec(Staged(recs, s, env, u).value, ActiveOf(env, u))
      ensures !Staged(recs, s, env, u).value.dirty ==> !IsEmptyRec(Staged(recs, s, env, u).value)
    {
      StagedMid(recs, s, env, u);
    }
  }

  lemma StageAllReady(recs: Recs, recs1: Recs, s: Stage, env: CommitEnv, u: UnitId)
    requires AllCanCommit(recs, s, env) && recs1.Keys == AllUnits(recs, s)
    requires forall v :: v in recs1 ==> Staged(recs, s, env, v) == Ok(recs1[v])
    requires u in recs1 ==> !recs1[u].dirty
    ensures u in ReadyUnits(recs) <==> u in ReadyUnits(recs1)
  {
    if u in recs1 {
      StagedShape(recs, s, env, u);
    }
  }

  lemma StageAllMid(t: Tab, s: Stage, env: CommitEnv, order: seq<UnitId>)
    requires Core(t, {}) && AllCanCommit(t.recs, s, env) && Enumerates(order, AllUnits(t.recs, s))
    ensures StageAll(t.recs, s, env).Ok?
    ensures Mid(t.(recs := StageAll(t.recs, s, env).value, sync := false), env, order)
  {
    StageAllRecs(t.recs, s, env);
    var recs1 := StageAll(t.recs, s, env).value;
    assert forall u :: u in order <==> u in Members(order);
    forall u | u !in PendingOf(recs1, order) ensures u in ReadyUnits(t.recs) <==> u in ReadyUnits(recs1) {
      StageAllReady(t.recs, recs1, s, env, u);
    }
    ManyPending(t.ix, ReadyUnits(t.recs), ReadyUnits(recs1), PendingOf(recs1, order));
  }

  /** The table holds exactly the units that have something left, each with the record
      its own commit gives it. */
  predicate CommittedTo(recs: Recs, recs': Recs, s: Stage, env: CommitEnv) {
    && recs'.Keys <= AllUnits(recs, s)
    && (forall u :: u in recs' ==> CommittedRec(recs, s, env, u) == Ok(recs'[u]) && !IsEmptyRec(recs'[u]))
    && (forall u :: u in AllUnits(recs, s) - recs'.Keys ==>
          CommittedRec(recs, s, env, u).Ok? && IsEmptyRec(CommittedRec(recs, s, env, u).value))
  }

  /** Where to find what the commit makes of a unit: in the table, or nowhere if nothing is left. */
  lemma PlaceOf(recs: Recs, recs': Recs, s: Stage, env: CommitEnv, u: UnitId)
    requires CommittedTo(recs, recs', s, env) && u in AllUnits(recs, s)
    ensures CommittedRec(recs, s, env, u).Ok?
    ensures if u in recs' then recs'[u] == CommittedRec(recs, s, env, u).value else IsEmptyRec(CommittedRec(recs, s, env, u).value)
  {
    assert u in recs' || u in AllUnits(recs, s) - recs'.Keys;
  }

  /** Units whose running job is about to be interrupted by a job that isolation drops. */
  predicate IsolationAborts(recs: Recs, s: Stage, env: CommitEnv) {
    exists u :: u in recs && Isolated(s, env, u) && recs[u].interrupt && !recs[u].pause
  }

  lemma CommitTargets(recs: Recs, s: Stage, env: CommitEnv, order: seq<UnitId>) returns (c: Recs)
    requires AllCanCommit(recs, s, env) && !IsolationAborts(recs, s, env)
    ensures StageAll(recs, s, env).Ok? && Targets(StageAll(recs, s, env).value, c, env, order)
    ensures c.Keys == AllUnits(recs, s) && StageAll(recs, s, env).value.Keys == AllUnits(recs, s)
    ensures forall u :: u in c ==> CommittedRec(recs, s, env, u) == Ok(c[u])
  {
    StageAllRecs(recs, s, env);
    forall u | u in AllUnits(recs, s) ensures CommittedRec(recs, s, env, u).Ok? {
      CommittedRecMeaning(recs, s, env, u);
    }
    c := map u | u in AllUnits(recs, s) :: CommittedRec(recs, s, env, u).value;
  }

  lemma CommitCore(t: Tab, s: Stage, env: CommitEnv, order: seq<UnitId>)
    requires Core(t, {}) && AllCanCommit(t.recs, s, env)
    requires Enumerates(order, AllUnits(t.recs, s)) && !IsolationAborts(t.recs, s, env)
    ensures StageAll(t.recs, s, env).Ok?
    ensures
      var e := ReshuffleUnits(t.(recs := StageAll(t.recs, s, env).value, sync := false), env, order);
      e.Ok? && Core(e.value, {}) && CommittedTo(t.recs, e.value.recs, s, env)
  {
    StageAllMid(t, s, env, order);
    var c := CommitTargets(t.recs, s, env, order);
    var t1 := t.(recs := StageAll(t.recs, s, env).value, sync := false);
    ReshuffleUnitsMid(t1, env, order, c);
    var t2 := ReshuffleUnits(t1, env, order).value;
    assert PendingOf(t2.recs, []) == {};
    MidCore(t2, env);
    CommittedFrom(t.recs, t1.recs, t2.recs, s, env, order, c);
  }

  lemma CommittedFrom(recs: Recs, recs1: Recs, recs2: Recs, s: Stage, env: CommitEnv, order: seq<UnitId>, c: Recs)
    requires Enumerates(order, AllUnits(recs, s)) && recs1.Keys == AllUnits(recs, s) == c.Keys
    requires forall u :: u in c ==> CommittedRec(recs, s, env, u) == Ok(c[u])
    requires ReshuffledTo(recs1, recs2, c, order)
    ensures CommittedTo(recs, recs2, s, env)
  {
    assert forall u :: u in order <==> u in Members(order);
    assert forall u :: u in recs2 ==> recs2[u] == c[u] && !IsEmptyRec(c[u]);
    assert forall u :: u in c && u !in recs2 ==> IsEmptyRec(c[u]);
  }

  lemma MidCore(t: Tab, env: CommitEnv)
    requires Mid(t, env, []) && PendingOf(t.recs, []) == {}
    ensures Core(t, {})
  {
  }

  lemma CommitCoreAborts(t: Tab, s: Stage, env: CommitEnv, order: seq<UnitId>)
    requires Core(t, {}) && AllCanCommit(t.recs, s, env)
    requires Enumerates(order, AllUnits(t.recs, s)) && IsolationAborts(t.recs, s, env)
    ensures StageAll(t.recs, s, env).Ok?
    ensures ReshuffleUnits(t.(recs := StageAll(t.recs, s, env).value, sync := false), env, order).Panic?
  {
    StageAllMid(t, s, env, order);
    StageAllRecs(t.recs, s, env);
    var recs := StageAll(t.recs, s, env).value;
    var u :| u in t.recs && Isolated(s, env, u) && t.recs[u].interrupt && !t.recs[u].pause;
    CommittedRecMeaning(t.recs, s, env, u);
    assert u in Members(order);
    ReshuffleUnitsAborts(t.(recs := recs, sync := false), env, order, u);
  }
}
