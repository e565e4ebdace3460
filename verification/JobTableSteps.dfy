/** The steps of the job table one by one: each keeps the invariant, with an exact
    account of what it does to every record and of when it aborts; then runs. */
module JobTableSteps {
  import opened Outcomes
  import opened UnitBase
  import opened JobEntry
  import opened JobTableState
  import opened JobTableIndex
  import opened JobTableInvariant
  import R = JobUnitRecord
  import V = JobUnitInvariant

  /** A paused unit whose interrupter has been removed. */
  predicate Stale(r: R.Rec) {
    r.pause && r.interrupt && r.sq == []
  }

  lemma {:induction false} ResumeAllAborts(t: Tab, x: set<UnitId>, us: seq<UnitId>)
    requires Core(t, x)
    ensures ResumeAll(t, us).Panic? <==> exists v :: v in us && v in t.recs && Stale(t.recs[v])
    decreases |us|
  {
    if us != [] {
      ResumeUnitCore(t, x, us[0]);
      var e := ResumeUnit(t, us[0]);
      assert us == [us[0]] + us[1..];
      if e.Ok? {
        ResumeAllAborts(e.value, x, us[1..]);
        assert forall v :: v in t.recs && v != us[0] ==> (Stale(t.recs[v]) <==> Stale(e.value.recs[v])) by {
          forall v | v in t.recs && v != us[0] ensures Stale(t.recs[v]) <==> Stale(e.value.recs[v]) {
            ResumeUnitOnly(t, us[0], v);
          }
        }
      }
    }
  }

  lemma ResumeUnitOnly(t: Tab, u: UnitId, v: UnitId)
    requires ResumeUnit(t, u).Ok? && v in t.recs && v != u
    ensures v in ResumeUnit(t, u).value.recs && ResumeUnit(t, u).value.recs[v] == t.recs[v]
  {
  }

  /** `recs'` is `recs` with the record `r'` for `u`, gone if empty, and with some
      units resumed. */
  predicate Rewritten(recs: Recs, recs': Recs, u: UnitId, r': R.Rec) {
    && recs'.Keys == (if IsEmptyRec(r') then recs.Keys - {u} else recs.Keys)
    && forall v :: v in recs' ==> Resumed(if v == u then r' else recs[v], recs'[v])
  }

  /** Everything related to `u` has been resumed. */
  predicate RelatedResumed(recs': Recs, db: Db, u: UnitId) {
    forall v :: Related(db, u, v) && v in recs' ==> !recs'[v].pause
  }

  /** Put a rewritten record, resume the related units, collect. */
  function Rewrite(t: Tab, db: Db, u: UnitId, r': R.Rec): Outcome<Tab> {
    var t1 :- ResumeRelated(PutRec(t, u, r'), db, u);
    Ok(Collect(t1, u))
  }

  lemma {:induction false} ResumeAllConcat(t: Tab, a: seq<UnitId>, b: seq<UnitId>)
    ensures ResumeAll(t, a + b) == if ResumeAll(t, a).Panic? then Panic else ResumeAll(ResumeAll(t, a).value, b)
    decreases |a|
  {
    if a == [] {
      assert a + b == b;
    } else {
      assert (a + b)[0] == a[0] && (a + b)[1..] == a[1..] + b;
      if ResumeUnit(t, a[0]).Ok? {
        ResumeAllConcat(ResumeUnit(t, a[0]).value, a[1..], b);
      }
    }
  }

  lemma ResumeRelatedAborts(t: Tab, x: set<UnitId>, db: Db, u: UnitId)
    requires Core(t, x)
    ensures ResumeRelated(t, db, u).Panic? <==> RelatedStale(t.recs, db, u)
  {
    var a, b := Gets(db, u, AtomAfter), Gets(db, u, AtomBefore);
    ResumeAllConcat(t, a, b);
    ResumeAllAborts(t, x, a + b);
    assert forall v :: Related(db, u, v) <==> v in a + b;
  }

  lemma RewrittenShape(recs: Recs, recs2: Recs, recs3: Recs, u: UnitId, r': R.Rec)
    requires u in recs && AllResumed(recs[u := r'], recs2)
    requires recs3 == if IsEmptyRec(recs2[u]) then recs2 - {u} else recs2
    ensures Rewritten(recs, recs3, u, r')
  {
    assert Resumed(r', recs2[u]);
    assert recs[u := r'].Keys == recs.Keys;
  }

  lemma RewriteCore(t: Tab, db: Db, u: UnitId, r': R.Rec)
    requires Core(t, {}) && u in t.recs && V.Settled(r')
    ensures Rewrite(t, db, u, r').Ok? ==>
      var t' := Rewrite(t, db, u, r').value;
      Core(t', {}) && t'.sync == t.sync && t'.ids == t.ids
  {
    PutRecCore(t, {}, u, r');
    var t1 := PutRec(t, u, r');
    assert {} + {u} == {u};
    ResumeRelatedCore(t1, {u}, db, u);
    var e := ResumeRelated(t1, db, u);
    if e.Ok? {
      CollectCore(e.value, u);
    }
  }

  lemma RewriteShape(t: Tab, db: Db, u: UnitId, r': R.Rec)
    requires Core(t, {}) && u in t.recs && V.Settled(r')
    ensures Rewrite(t, db, u, r').Ok? ==>
      var t' := Rewrite(t, db, u, r').value;
      Rewritten(t.recs, t'.recs, u, r') && RelatedResumed(t'.recs, db, u)
  {
    PutRecCore(t, {}, u, r');
    var t1 := PutRec(t, u, r');
    assert {} + {u} == {u};
    ResumeRelatedCore(t1, {u}, db, u);
    var e := ResumeRelated(t1, db, u);
    if e.Ok? {
      RewrittenShape(t.recs, e.value.recs, Collect(e.value, u).recs, u, r');
    }
  }

  /** Some unit related to `u` is paused and has lost its interrupter. */
  predicate RelatedStale(recs: Recs, db: Db, u: UnitId) {
    exists v :: v in recs && Related(db, u, v) && Stale(recs[v])
  }

  lemma RewriteAborts(t: Tab, db: Db, u: UnitId, r': R.Rec)
    requires Core(t, {}) && u in t.recs && V.Settled(r') && !Related(db, u, u)
    ensures Rewrite(t, db, u, r').Panic? <==> RelatedStale(t.recs, db, u)
  {
    PutRecCore(t, {}, u, r');
    assert {} + {u} == {u};
    ResumeRelatedAborts(PutRec(t, u, r'), {u}, db, u);
    StaleElsewhere(t.recs, t.recs[u := r'], db, u);
  }

  lemma StaleElsewhere(recs: Recs, recs': Recs, db: Db, u: UnitId)
    requires recs'.Keys == recs.Keys && !Related(db, u, u)
    requires forall v :: v in recs && v != u ==> recs'[v] == recs[v]
    ensures RelatedStale(recs', db, u) <==> RelatedStale(recs, db, u)
  {
    if RelatedStale(recs, db, u) {
      var v :| v in recs && Related(db, u, v) && Stale(recs[v]);
      assert Stale(recs'[v]);
    }
    if RelatedStale(recs', db, u) {
      var v :| v in recs' && Related(db, u, v) && Stale(recs'[v]);
      assert Stale(recs[v]);
    }
  }

  lemma RewriteIds(t: Tab, db: Db, u: UnitId, r': R.Rec, ids': map<nat, JobRef>)
    requires Core(t, {}) && u in t.recs && V.Settled(r') && IdsOk(t.recs[u := r'], ids')
    requires Rewrite(t, db, u, r').Ok?
    ensures IdsOk(Rewrite(t, db, u, r').value.recs, ids')
  {
    PutRecCore(t, {}, u, r');
    var t1 := PutRec(t, u, r');
    ResumeRelatedCore(t1, {} + {u}, db, u);
    var t2 := ResumeRelated(t1, db, u).value;
    IdsResumed(t1.recs, t2.recs, ids');
    IdsCollect(t2, u, ids');
  }

  /** The invariant through a rewrite that brings the ids up to date. */
  lemma RewriteInv(t: Tab, db: Db, u: UnitId, r': R.Rec, ids': map<nat, JobRef>)
    requires TabInv(t) && u in t.recs && V.Settled(r') && IdsOk(t.recs[u := r'], ids') && Rewrite(t, db, u, r').Ok?
    ensures
      var t' := Rewrite(t, db, u, r').value;
      TabInv(t'.(ids := ids')) && Rewritten(t.recs, t'.recs, u, r') && RelatedResumed(t'.recs, db, u)
  {
    RewriteCore(t, db, u, r');
    RewriteShape(t, db, u, r');
    RewriteIds(t, db, u, r', ids');
  }

  // ----- trying -----

  /** The unit that is tried next, if any, and the table it has been taken out of. */
  function Next(t: Tab, order: seq<UnitId>): Option<(UnitId, Tab)> {
    var ix := Fill(t.ix, order);
    if ix.readys == [] then None
    else Some((ix.readys[|ix.readys| - 1], t.(ix := ix.(readys := ix.readys[..|ix.readys| - 1]))))
  }

  lemma NextPopped(t: Tab, order: seq<UnitId>)
    requires TabInv(t) && Enumerates(order, t.ix.tReady)
    ensures Next(t, order).Some? ==> Popped(Next(t, order).value.1, Next(t, order).value.0)
    ensures Next(t, order).None? ==> ReadyUnits(t.recs) == {} && IndexOk(Fill(t.ix, order), {})
  {
    FillOk(t.ix, ReadyUnits(t.recs), order);
    if Next(t, order).Some? {
      PopOk(Fill(t.ix, order), ReadyUnits(t.recs));
    }
  }

  /** Trying the next unit aborts exactly when that unit's record is gone, when it is
      no longer ready, or when it may go ahead and triggering it aborts. */
  lemma TryTriggerAborts(t: Tab, db: Db, order: seq<UnitId>, act: Option<ActionError>, us: ActiveState)
    requires TabInv(t) && AllSound(t.recs) && Enumerates(order, t.ix.tReady)
    ensures TryTrigger(t, db, order, act, us).Panic? <==>
      Next(t, order).Some? && EntryAborts(t.recs, db, Next(t, order).value.0, act, us)
  {
    NextPopped(t, order);
    if Next(t, order).Some? {
      TryEntryAborts(Next(t, order).value.1, db, Next(t, order).value.0, act, us);
    }
  }

  /** With nothing to try, the batch is empty and no unit is ready. */
  lemma TryNothing(t: Tab, db: Db, order: seq<UnitId>, act: Option<ActionError>, us: ActiveState)
    requires TabInv(t) && AllSound(t.recs) && Enumerates(order, t.ix.tReady) && Next(t, order).None?
    ensures
      var e := TryTrigger(t, db, order, act, us);
      && e.Ok? && e.value.1 == Nothing && TabInv(e.value.0)
      && e.value.0.recs == t.recs && e.value.0.ids == t.ids && e.value.0.ix.readys == []
    ensures ReadyUnits(t.recs) == {}
  {
    NextPopped(t, order);
  }

  /** The next unit is paused because another has to go first, or its next job, which
      no other blocks, is handed over; no other record changes. */
  lemma TrySomething(t: Tab, db: Db, order: seq<UnitId>, act: Option<ActionError>, us: ActiveState)
    requires TabInv(t) && AllSound(t.recs) && Enumerates(order, t.ix.tReady) && Next(t, order).Some?
    requires TryTrigger(t, db, order, act, us).Ok?
    ensures
      var u := Next(t, order).value.0;
      var (t', tried) := TryTrigger(t, db, order, act, us).value;
      && TabInv(t') && u in t.recs && R.NextJob(t.recs[u]).Ok?
      && (match tried
          case Nothing => false
          case Paused(v) =>
            && v == u && !MayGo(t.recs, db, u, R.NextJob(t.recs[u]).value)
            && t'.recs == t.recs[u := t.recs[u].(pause := true, ready := false)]
          case Triggered(v, out, merged) =>
            && v == u && MayGo(t.recs, db, u, R.NextJob(t.recs[u]).value)
            && u in t'.recs && t'.recs == t.recs[u := t'.recs[u]] && Handed(t.recs[u], t'.recs[u], out, merged))
  {
    NextPopped(t, order);
    TryEntryInv(Next(t, order).value.1, db, Next(t, order).value.0, act, us);
  }

  // ----- finishing -----

  lemma FinishedIds(recs: Recs, ids: map<nat, JobRef>, u: UnitId, result: JobResult)
    requires IdsOk(recs, ids) && u in recs && V.Settled(recs[u]) && recs[u].trigger.Some?
    ensures CanFinish(recs[u].trigger.value)
    ensures
      var del := R.FinishEntry(recs[u], result);
      del.Ok? && IdsOk(recs[u := V.FinishedRec(recs[u], result)], Without(ids, del.value.1))
  {
    var r := recs[u];
    V.FinishShape(r, result);
    var del := R.FinishEntry(r, result).value.1;
    var j := r.trigger.value;
    assert HeldIn(recs, u, j.kind, j.id);
    assert Refers(ids, j.id, u, j.kind);
    var gone: set<nat> := if del.Some? then {del.value.id} else {};
    assert Without(ids, del) == ids - gone;
    IdsPut(recs, ids, u, V.FinishedRec(r, result), gone);
  }

  /** Finishing rewrites the unit's record and resumes everything related. */
  lemma FinishTriggerInv(t: Tab, db: Db, u: UnitId, result: JobResult)
    requires TabInv(t)
    ensures FinishTrigger(t, db, u, result).Ok? ==>
      var (t', del) := FinishTrigger(t, db, u, result).value;
      && TabInv(t') && u in t.recs && t.recs[u].trigger.Some? && CanFinish(t.recs[u].trigger.value)
      && Rewritten(t.recs, t'.recs, u, V.FinishedRec(t.recs[u], result)) && RelatedResumed(t'.recs, db, u)
      && t'.ids == Without(t.ids, del)
  {
    if u in t.recs && t.recs[u].trigger.Some? {
      V.FinishEntrySettles(t.recs[u], result);
      var r' := V.FinishedRec(t.recs[u], result);
      FinishedIds(t.recs, t.ids, u, result);
      var del := R.FinishEntry(t.recs[u], result).value.1;
      if Rewrite(t, db, u, r').Ok? {
        RewriteInv(t, db, u, r', Without(t.ids, del));
      }
    }
  }

  /** Finishing aborts exactly when the unit has no trigger, or when a related unit
      is paused and has lost its interrupter. */
  lemma FinishTriggerAborts(t: Tab, db: Db, u: UnitId, result: JobResult)
    requires TabInv(t) && !Related(db, u, u)
    ensures FinishTrigger(t, db, u, result).Panic? <==>
      u !in t.recs || t.recs[u].trigger.None? || RelatedStale(t.recs, db, u)
  {
    if u in t.recs && t.recs[u].trigger.Some? {
      V.FinishEntrySettles(t.recs[u], result);
      RewriteAborts(t, db, u, V.FinishedRec(t.recs[u], result));
    }
  }

  // ----- removing -----

  lemma RemovedIds(recs: Recs, ids: map<nat, JobRef>, u: UnitId, k1: JobKind, k2: Option<JobKind>, r': R.Rec)
    requires IdsOk(recs, ids) && u in recs
    requires r'.suspends == V.Remaining(recs[u].suspends, k1, k2) && r'.trigger == recs[u].trigger
    ensures IdsOk(recs[u := r'], ids - IdsOf(recs[u].suspends, Named(k1, k2)))
  {
    var r := recs[u];
    var gone := IdsOf(r.suspends, Named(k1, k2));
    forall k, id | Holds(r, k, id) ensures id in gone <==> !Holds(r', k, id) {
      assert HeldIn(recs, u, k, id) && Refers(ids, id, u, k);
      if id in gone {
        var k3 :| k3 in r.suspends && k3 in Named(k1, k2) && r.suspends[k3].id == id;
        assert HeldIn(recs, u, k3, id) && Refers(ids, id, u, k3);
      }
    }
    forall id | id in gone && id in ids ensures ids[id].unit == u {
      var k3 :| k3 in r.suspends && k3 in Named(k1, k2) && r.suspends[k3].id == id;
      assert HeldIn(recs, u, k3, id) && Refers(ids, id, u, k3);
    }
    IdsPut(recs, ids, u, r', gone);
  }

  lemma RemoveSuspendsInv(t: Tab, db: Db, u: UnitId, k1: JobKind, k2: Option<JobKind>, result: JobResult, us: ActiveState)
    requires TabInv(t)
    ensures RemoveSuspends(t, db, u, k1, k2, result, us).Ok? ==>
      var t' := RemoveSuspends(t, db, u, k1, k2, result, us).value;
      && TabInv(t')
      && (u !in t.recs ==> t' == t)
      && (u in t.recs ==>
            && R.RemoveEntry(t.recs[u], k1, k2, result, us).Ok?
            && Rewritten(t.recs, t'.recs, u, R.RemoveEntry(t.recs[u], k1, k2, result, us).value)
            && RelatedResumed(t'.recs, db, u)
            && t'.ids == t.ids - IdsOf(t.recs[u].suspends, Named(k1, k2)))
  {
    if u in t.recs {
      V.RemoveEntrySettles(t.recs[u], k1, k2, result, us);
      var e := R.RemoveEntry(t.recs[u], k1, k2, result, us);
      if e.Ok? {
        RemovedIds(t.recs, t.ids, u, k1, k2, e.value);
        if Rewrite(t, db, u, e.value).Ok? {
          RewriteInv(t, db, u, e.value, t.ids - IdsOf(t.recs[u].suspends, Named(k1, k2)));
        }
      }
    }
  }

  /** Removing suspended jobs aborts exactly when it takes the last of a unit whose
      trigger that job was to interrupt, unless the unit is paused; or when a related
      unit is paused and has lost its interrupter before. */
  lemma RemoveSuspendsAborts(t: Tab, db: Db, u: UnitId, k1: JobKind, k2: Option<JobKind>, result: JobResult, us: ActiveState)
    requires TabInv(t) && !Related(db, u, u)
    ensures RemoveSuspends(t, db, u, k1, k2, result, us).Panic? <==>
      u in t.recs &&
      ((t.recs[u].interrupt && !t.recs[u].pause && V.Remaining(t.recs[u].suspends, k1, k2) == map[]) ||
       RelatedStale(t.recs, db, u))
  {
    if u in t.recs {
      V.RemoveEntrySettles(t.recs[u], k1, k2, result, us);
      var e := R.RemoveEntry(t.recs[u], k1, k2, result, us);
      if e.Ok? {
        RewriteAborts(t, db, u, e.value);
      }
    }
  }

  // ----- the rest -----

  lemma ResumeUnitInv(t: Tab, u: UnitId)
    requires TabInv(t)
    ensures ResumeUnit(t, u).Ok? ==> TabInv(ResumeUnit(t, u).value) && AllResumed(t.recs, ResumeUnit(t, u).value.recs)
  {
    ResumeUnitCore(t, {}, u);
    if ResumeUnit(t, u).Ok? {
      IdsResumed(t.recs, ResumeUnit(t, u).value.recs, t.ids);
    }
  }

  /** A unit leaves with all its jobs, provided it is not waiting in the batch. */
  lemma RemoveUnitInv(t: Tab, u: UnitId)
    requires TabInv(t) && u !in t.ix.readys
    ensures TabInv(RemoveUnit(t, u))
  {
    if u in t.recs {
      var t' := RemoveUnit(t, u);
      var r := t.recs[u];
      DropUnitOk(t.ix, ReadyUnits(t.recs), {}, u);
      assert ReadyUnits(t'.recs) == ReadyUnits(t.recs) - {u};
      forall v, k, id ensures Refers(t'.ids, id, v, k) <==> HeldIn(t'.recs, v, k, id) {
        UnitIds(t.recs, t.ids, u, v, k, id);
      }
    }
  }

  lemma UnitIds(recs: Recs, ids: map<nat, JobRef>, u: UnitId, v: UnitId, k: JobKind, id: nat)
    requires IdsOk(recs, ids) && u in recs
    ensures
      var ids' := Without(ids - IdsOf(recs[u].suspends, recs[u].suspends.Keys), recs[u].trigger);
      Refers(ids', id, v, k) <==> HeldIn(recs - {u}, v, k, id)
  {
    assert Refers(ids, id, v, k) <==> HeldIn(recs, v, k, id);
    if HeldIn(recs, v, k, id) && v != u {
      LeavesAlone(recs, ids, u, v, k, id);
    }
  }

  lemma OwnerOf(recs: Recs, ids: map<nat, JobRef>, u: UnitId, k: JobKind, id: nat)
    requires IdsOk(recs, ids) && HeldIn(recs, u, k, id)
    ensures id in ids && ids[id].unit == u
  {
    assert Refers(ids, id, u, k);
  }

  lemma LeavesAlone(recs: Recs, ids: map<nat, JobRef>, u: UnitId, v: UnitId, k: JobKind, id: nat)
    requires IdsOk(recs, ids) && u in recs && HeldIn(recs, v, k, id) && v != u
    ensures id !in IdsOf(recs[u].suspends, recs[u].suspends.Keys)
    ensures recs[u].trigger.Some? ==> recs[u].trigger.value.id != id
  {
    OwnerOf(recs, ids, v, k, id);
    forall k3 | k3 in recs[u].suspends
      ensures recs[u].suspends[k3].id in ids && ids[recs[u].suspends[k3].id].unit == u
    {
      OwnerOf(recs, ids, u, k3, recs[u].suspends[k3].id);
    }
    if recs[u].trigger.Some? {
      OwnerOf(recs, ids, u, recs[u].trigger.value.kind, recs[u].trigger.value.id);
    }
  }
}
