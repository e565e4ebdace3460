/** The invariant of the job table and its preservation: every unit's record is
    settled, the readiness index is right, and the id index holds exactly the
    suspended and triggered jobs. */
module JobTableInvariant {
  import opened Outcomes
  import opened UnitBase
  import opened JobEntry
  import opened JobTableState
  import opened JobTableIndex
  import R = JobUnitRecord
  import V = JobUnitInvariant

  /** Does the record hold the job of kind `k` with this id, suspended or triggered? */
  predicate Holds(r: R.Rec, k: JobKind, id: nat) {
    (k in r.suspends && r.suspends[k].id == id) ||
    (r.trigger.Some? && r.trigger.value.kind == k && r.trigger.value.id == id)
  }

  predicate HeldIn(recs: Recs, u: UnitId, k: JobKind, id: nat) {
    u in recs && Holds(recs[u], k, id)
  }

  predicate Refers(ids: map<nat, JobRef>, id: nat, u: UnitId, k: JobKind) {
    id in ids && ids[id] == JobRef(u, k)
  }

  predicate TriggerApart(r: R.Rec) {
    r.trigger.Some? ==> forall k :: k in r.suspends ==> r.suspends[k].id != r.trigger.value.id
  }

  ghost predicate IdsOk(recs: Recs, ids: map<nat, JobRef>) {
    && (forall u, k, id :: Refers(ids, id, u, k) <==> HeldIn(recs, u, k, id))
    && (forall u :: u in recs ==> TriggerApart(recs[u]))
  }

  /** Settled records, none of them empty except perhaps those of `x`, and a right
      readiness index. */
  predicate Core(t: Tab, x: set<UnitId>) {
    && (forall u :: u in t.recs ==> V.Settled(t.recs[u]) && (u !in x ==> !IsEmptyRec(t.recs[u])))
    && IndexOk(t.ix, ReadyUnits(t.recs))
  }

  ghost predicate TabInv(t: Tab) {
    t.sync && Core(t, {}) && IdsOk(t.recs, t.ids)
  }

  lemma CoreSound(t: Tab, x: set<UnitId>)
    requires Core(t, x)
    ensures AllSound(t.recs)
  {
    forall u | u in t.recs ensures R.QueueSound(t.recs[u]) {
      V.SettledQueueSound(t.recs[u]);
    }
  }

  // ----- replacing one record -----

  lemma PutRecIndex(t: Tab, u: UnitId, r: R.Rec)
    requires IndexOk(t.ix, ReadyUnits(t.recs)) && u in t.recs
    ensures IndexOk(PutRec(t, u, r).ix, ReadyUnits(PutRec(t, u, r).recs))
  {
    var ready, ready' := ReadyUnits(t.recs), ReadyUnits(t.recs[u := r]);
    assert ready - {u} == ready' - {u};
    BecomesPending(t.ix, ready, ready', {}, u);
    ReadySyncOk(t.ix, u, ready', {});
  }

  lemma PutRecCore(t: Tab, x: set<UnitId>, u: UnitId, r: R.Rec)
    requires Core(t, x) && u in t.recs && V.Settled(r)
    ensures Core(PutRec(t, u, r), x + {u})
    ensures !IsEmptyRec(r) ==> Core(PutRec(t, u, r), x)
  {
    PutRecIndex(t, u, r);
  }

  /** A record with the same jobs is no emptier than the one it replaces. */
  lemma PutRecSame(t: Tab, x: set<UnitId>, u: UnitId, r: R.Rec)
    requires Core(t, x) && u in t.recs && V.Settled(r)
    requires r.suspends == t.recs[u].suspends && r.trigger == t.recs[u].trigger
    ensures Core(PutRec(t, u, r), x)
  {
    PutRecCore(t, x, u, r);
    if u in x {
      assert x + {u} == x;
    }
  }

  lemma CollectCore(t: Tab, u: UnitId)
    requires Core(t, {u})
    ensures Core(Collect(t, u), {})
    ensures Collect(t, u).recs == (if u in t.recs && IsEmptyRec(t.recs[u]) then t.recs - {u} else t.recs)
  {
    if u in t.recs && IsEmptyRec(t.recs[u]) {
      DropUnitOk(t.ix, ReadyUnits(t.recs), {}, u);
      assert !t.recs[u].ready;
      assert ReadyUnits(t.recs - {u}) == ReadyUnits(t.recs) - {u};
    }
  }

  // ----- resuming -----

  /** What a resume does to a record. */
  predicate Resumed(r: R.Rec, r': R.Rec) {
    r' == r || (r.pause && r' == r.(pause := false, ready := r'.ready))
  }

  predicate AllResumed(recs: Recs, recs': Recs) {
    recs'.Keys == recs.Keys && forall u :: u in recs ==> Resumed(recs[u], recs'[u])
  }

  lemma ResumeUnitCore(t: Tab, x: set<UnitId>, v: UnitId)
    requires Core(t, x)
    ensures ResumeUnit(t, v).Ok? ==>
      var t' := ResumeUnit(t, v).value;
      && Core(t', x) && AllResumed(t.recs, t'.recs) && t'.ids == t.ids && t'.sync == t.sync
      && (v in t.recs ==> !t'.recs[v].pause)
    ensures ResumeUnit(t, v).Panic? <==>
      v in t.recs && t.recs[v].pause && t.recs[v].interrupt && t.recs[v].sq == []
  {
    if v in t.recs && t.recs[v].pause {
      V.ResumeEntrySettles(t.recs[v]);
      var e := R.ResumeEntry(t.recs[v]);
      if e.Ok? {
        PutRecSame(t, x, v, e.value);
      }
    }
  }

  lemma {:induction false} ResumeAllCore(t: Tab, x: set<UnitId>, us: seq<UnitId>)
    requires Core(t, x)
    ensures ResumeAll(t, us).Ok? ==>
      var t' := ResumeAll(t, us).value;
      && Core(t', x) && AllResumed(t.recs, t'.recs) && t'.ids == t.ids && t'.sync == t.sync
      && (forall v :: v in us && v in t.recs ==> !t'.recs[v].pause)
    decreases |us|
  {
    if us != [] {
      ResumeUnitCore(t, x, us[0]);
      var e := ResumeUnit(t, us[0]);
      if e.Ok? {
        ResumeAllCore(e.value, x, us[1..]);
        assert forall v :: v in us ==> v == us[0] || v in us[1..];
      }
    }
  }

  predicate Related(db: Db, u: UnitId, v: UnitId) {
    v in Gets(db, u, AtomAfter) || v in Gets(db, u, AtomBefore)
  }

  lemma ResumeRelatedCore(t: Tab, x: set<UnitId>, db: Db, u: UnitId)
    requires Core(t, x)
    ensures ResumeRelated(t, db, u).Ok? ==>
      var t' := ResumeRelated(t, db, u).value;
      && Core(t', x) && AllResumed(t.recs, t'.recs) && t'.ids == t.ids && t'.sync == t.sync
      && (forall v :: Related(db, u, v) && v in t.recs ==> !t'.recs[v].pause)
  {
    ResumeAllCore(t, x, Gets(db, u, AtomAfter));
    var e := ResumeAll(t, Gets(db, u, AtomAfter));
    if e.Ok? {
      ResumeAllCore(e.value, x, Gets(db, u, AtomBefore));
    }
  }

  // ----- the id index -----

  lemma IdsResumed(recs: Recs, recs': Recs, ids: map<nat, JobRef>)
    requires IdsOk(recs, ids) && AllResumed(recs, recs')
    ensures IdsOk(recs', ids)
  {
    forall u, k, id ensures HeldIn(recs', u, k, id) <==> HeldIn(recs, u, k, id) {
      if u in recs {
        assert recs'[u].suspends == recs[u].suspends && recs'[u].trigger == recs[u].trigger;
      }
    }
  }

  /** `gone` are exactly the ids the old record of `u` holds and the new one does not. */
  ghost predicate GoneFrom(r: R.Rec, r': R.Rec, gone: set<nat>) {
    forall k, id :: Holds(r, k, id) ==> (id in gone <==> !Holds(r', k, id))
  }

  lemma IdsPut(recs: Recs, ids: map<nat, JobRef>, u: UnitId, r': R.Rec, gone: set<nat>)
    requires IdsOk(recs, ids) && u in recs && TriggerApart(r')
    requires forall k, id :: Holds(r', k, id) ==> Holds(recs[u], k, id)
    requires GoneFrom(recs[u], r', gone)
    requires forall id :: id in gone && id in ids ==> ids[id].unit == u
    ensures IdsOk(recs[u := r'], ids - gone)
  {
    var recs' := recs[u := r'];
    var ids' := ids - gone;
    forall v, k, id ensures Refers(ids', id, v, k) <==> HeldIn(recs', v, k, id) {
      assert Refers(ids, id, v, k) <==> HeldIn(recs, v, k, id);
      if v == u {
        if Holds(r', k, id) {
          assert Holds(recs[u], k, id);
        }
      }
    }
  }

  lemma IdsCollect(t: Tab, u: UnitId, ids: map<nat, JobRef>)
    requires IdsOk(t.recs, ids)
    ensures IdsOk(Collect(t, u).recs, ids)
  {
    var recs' := Collect(t, u).recs;
    forall v, k, id ensures HeldIn(recs', v, k, id) <==> HeldIn(t.recs, v, k, id) {
    }
  }

  // ----- trying the next unit -----

  /** Nothing among `others` holds a job that has to go before `j`. */
  predicate Unblocked(recs: Recs, j: Job, others: seq<UnitId>, atom: OrderAtom) {
    forall v :: v in others && v in recs ==> !R.Blocks(recs[v], j, atom)
  }

  predicate Exempt(j: Job) {
    j.ignoreOrder || j.kind.Nop?
  }

  /** The jobs of the units related to `u` that are in the table let `j` pass. */
  predicate MayGo(recs: Recs, db: Db, u: UnitId, j: Job) {
    Exempt(j) ||
    (Unblocked(recs, j, Gets(db, u, AtomAfter), After) && Unblocked(recs, j, Gets(db, u, AtomBefore), Before))
  }

  predicate AllOrdered(recs: Recs) {
    forall v :: v in recs ==> recs[v].order
  }

  lemma {:induction false} FreeOfMeaning(recs: Recs, r: R.Rec, others: seq<UnitId>, atom: OrderAtom)
    requires AllOrdered(recs) && R.QueueSound(r) && r.ready && R.NextJob(r).Ok?
    ensures FreeOf(recs, r, others, atom)
      == Ok(Exempt(R.NextJob(r).value) || Unblocked(recs, R.NextJob(r).value, others, atom))
    decreases |others|
  {
    if others != [] {
      FreeOfMeaning(recs, r, others[1..], atom);
      assert forall v :: v in others <==> v == others[0] || v in others[1..];
    }
  }

  lemma {:induction false} FreeOfUnready(recs: Recs, r: R.Rec, others: seq<UnitId>, atom: OrderAtom)
    requires R.QueueSound(r) && !r.ready
    ensures FreeOf(recs, r, others, atom).Panic? || FreeOf(recs, r, others, atom) == Ok(true)
    decreases |others|
  {
    if others != [] {
      FreeOfUnready(recs, r, others[1..], atom);
    }
  }

  lemma IsRunnableMeaning(recs: Recs, db: Db, u: UnitId, r: R.Rec)
    requires AllOrdered(recs) && R.QueueSound(r)
    ensures r.ready && R.NextJob(r).Ok? ==> IsRunnable(recs, db, u, r) == Ok(MayGo(recs, db, u, R.NextJob(r).value))
    ensures !r.ready ==> IsRunnable(recs, db, u, r).Panic? || IsRunnable(recs, db, u, r) == Ok(true)
  {
    if r.ready && R.NextJob(r).Ok? {
      FreeOfMeaning(recs, r, Gets(db, u, AtomAfter), After);
      FreeOfMeaning(recs, r, Gets(db, u, AtomBefore), Before);
    } else if !r.ready {
      FreeOfUnready(recs, r, Gets(db, u, AtomAfter), After);
      FreeOfUnready(recs, r, Gets(db, u, AtomBefore), Before);
    }
  }

  /** The next job of a ready, settled record. */
  lemma ReadyHasNext(r: R.Rec)
    requires V.Settled(r) && R.QueueSound(r) && r.ready
    ensures V.QueueDue(r) || V.RetriggerDue(r)
    ensures R.NextJob(r).Ok?
    ensures V.QueueDue(r) ==> r.sq != [] && r.sq[0] in r.suspends && R.NextJob(r).value == r.suspends[r.sq[0]]
    ensures V.RetriggerDue(r) ==> r.trigger.Some? && R.NextJob(r).value == r.trigger.value
  {
  }

  /** The invariant while `u` has been taken from the batch and not yet dealt with. */
  ghost predicate Popped(t: Tab, u: UnitId) {
    && t.sync && IdsOk(t.recs, t.ids)
    && (forall v :: v in t.recs ==> V.Settled(t.recs[v]) && !IsEmptyRec(t.recs[v]))
    && IndexOn(t.ix, ReadyUnits(t.recs), {u}) && u !in t.ix.tReady && u !in t.ix.readys
  }

  lemma PoppedSound(t: Tab, u: UnitId)
    requires Popped(t, u)
    ensures AllSound(t.recs) && AllOrdered(t.recs)
  {
    forall v | v in t.recs ensures R.QueueSound(t.recs[v]) {
      V.SettledQueueSound(t.recs[v]);
    }
  }

  /** Exactly when trying `u` aborts: its record is gone, it is no longer ready, or
      it may go ahead and triggering it aborts. */
  predicate EntryAborts(recs: Recs, db: Db, u: UnitId, act: Option<ActionError>, us: ActiveState)
    requires u in recs ==> V.Settled(recs[u]) && R.QueueSound(recs[u])
  {
    u !in recs || !recs[u].ready ||
    (ReadyHasNext(recs[u]);
     MayGo(recs, db, u, R.NextJob(recs[u]).value) && V.TriggerAborts(recs[u], act, us))
  }

  lemma TryEntryAborts(t: Tab, db: Db, u: UnitId, act: Option<ActionError>, us: ActiveState)
    requires Popped(t, u) && AllSound(t.recs)
    ensures TryEntry(t, db, u, act, us).Panic? <==> EntryAborts(t.recs, db, u, act, us)
  {
    PoppedSound(t, u);
    if u in t.recs {
      if t.recs[u].ready {
        ReadyEntryAborts(t, db, u, act, us);
      } else {
        IsRunnableMeaning(t.recs, db, u, t.recs[u]);
        V.TriggerEntrySettles(t.recs[u], act, us);
      }
    }
  }

  lemma ReadyEntryAborts(t: Tab, db: Db, u: UnitId, act: Option<ActionError>, us: ActiveState)
    requires AllSound(t.recs) && AllOrdered(t.recs) && u in t.recs && V.Settled(t.recs[u]) && t.recs[u].ready
    ensures R.NextJob(t.recs[u]).Ok?
    ensures TryEntry(t, db, u, act, us).Panic? <==>
      MayGo(t.recs, db, u, R.NextJob(t.recs[u]).value) && V.TriggerAborts(t.recs[u], act, us)
  {
    var r := t.recs[u];
    ReadyHasNext(r);
    IsRunnableMeaning(t.recs, db, u, r);
    V.TriggerEntrySettles(r, act, us);
    V.PauseEntrySettles(r);
  }

  /** The new record of a unit whose next job was handed over. */
  predicate Handed(r: R.Rec, r': R.Rec, out: RunOutcome, merged: Option<Job>) {
    if V.QueueDue(r) then
      r.sq != [] && r.sq[0] in r.suspends && r' == V.HandedOver(r, out) && merged == (if r.interrupt then r.trigger else None)
    else
      r.trigger.Some? && r' == V.HandedAgain(r, out) && merged == None
  }

  lemma TriggerEntryHanded(r: R.Rec, act: Option<ActionError>, us: ActiveState)
    requires V.Settled(r) && R.QueueSound(r) && R.TriggerEntry(r, act, us).Ok?
    ensures
      var (r', out, merged) := R.TriggerEntry(r, act, us).value;
      Handed(r, r', out, merged) && V.Settled(r') && !r'.ready && !IsEmptyRec(r')
  {
    V.TriggerEntrySettles(r, act, us);
    if V.QueueDue(r) {
      V.TriggerQueuedSettles(r, act, us);
    } else {
      V.TriggerAgainShape(r, act, us);
    }
  }

  /** Jobs suspended beside each other have different ids. */
  lemma SuspendsApart(recs: Recs, ids: map<nat, JobRef>, u: UnitId, k: JobKind, k2: JobKind)
    requires IdsOk(recs, ids) && u in recs && k in recs[u].suspends && k2 in recs[u].suspends && k != k2
    ensures recs[u].suspends[k].id != recs[u].suspends[k2].id
  {
    var r := recs[u];
    assert HeldIn(recs, u, k2, r.suspends[k2].id) && HeldIn(recs, u, k, r.suspends[k].id);
    assert Refers(ids, r.suspends[k2].id, u, k2) && Refers(ids, r.suspends[k].id, u, k);
  }

  lemma QueuedIds(recs: Recs, ids: map<nat, JobRef>, u: UnitId, r': R.Rec, gone: set<nat>)
    requires IdsOk(recs, ids) && u in recs
    requires
      var r := recs[u];
      && r.sq != [] && r.sq[0] in r.suspends && r.suspends[r.sq[0]].kind == r.sq[0]
      && r'.suspends == r.suspends - {r.sq[0]}
      && r'.trigger == Some(r.suspends[r.sq[0]].(stage := Running))
      && gone == (if r.trigger.Some? then {r.trigger.value.id} else {})
    ensures IdsOk(recs[u := r'], ids - gone)
  {
    var r := recs[u];
    forall k2 | k2 in r'.suspends ensures r'.suspends[k2].id != r'.trigger.value.id {
      SuspendsApart(recs, ids, u, r.sq[0], k2);
    }
    if r.trigger.Some? {
      var j := r.trigger.value;
      assert HeldIn(recs, u, j.kind, j.id);
      assert Refers(ids, j.id, u, j.kind);
    }
    IdsPut(recs, ids, u, r', gone);
  }

  lemma HandedIds(recs: Recs, ids: map<nat, JobRef>, u: UnitId, r': R.Rec, out: RunOutcome, merged: Option<Job>)
    requires IdsOk(recs, ids) && u in recs && V.Settled(recs[u]) && Handed(recs[u], r', out, merged)
    ensures IdsOk(recs[u := r'], Without(ids, merged))
  {
    if V.QueueDue(recs[u]) {
      HandedQueuedIds(recs, ids, u, r', out, merged);
    } else {
      IdsPut(recs, ids, u, r', {});
      assert ids - {} == ids;
    }
  }

  lemma HandedQueuedIds(recs: Recs, ids: map<nat, JobRef>, u: UnitId, r': R.Rec, out: RunOutcome, merged: Option<Job>)
    requires IdsOk(recs, ids) && u in recs && V.Settled(recs[u]) && Handed(recs[u], r', out, merged) && V.QueueDue(recs[u])
    ensures IdsOk(recs[u := r'], Without(ids, merged))
  {
    var gone: set<nat> := if merged.Some? then {merged.value.id} else {};
    assert Without(ids, merged) == ids - gone;
    QueuedIds(recs, ids, u, r', gone);
  }

  lemma PoppedPut(t: Tab, u: UnitId, r': R.Rec, ids': map<nat, JobRef>)
    requires Popped(t, u) && u in t.recs && V.Settled(r') && !r'.ready && !IsEmptyRec(r')
    requires IdsOk(t.recs[u := r'], ids')
    ensures TabInv(t.(recs := t.recs[u := r'], ids := ids'))
  {
    PoppedSettles(t.ix, ReadyUnits(t.recs), u);
    assert ReadyUnits(t.recs[u := r']) == ReadyUnits(t.recs) - {u};
  }

  lemma TryEntryInv(t: Tab, db: Db, u: UnitId, act: Option<ActionError>, us: ActiveState)
    requires Popped(t, u) && AllSound(t.recs) && TryEntry(t, db, u, act, us).Ok?
    ensures
      var (t', tried) := TryEntry(t, db, u, act, us).value;
      && TabInv(t') && u in t.recs && t'.ix == t.ix && R.NextJob(t.recs[u]).Ok?
      && (match tried
          case Nothing => false
          case Paused(v) =>
            && v == u && !MayGo(t.recs, db, u, R.NextJob(t.recs[u]).value)
            && t'.recs == t.recs[u := t.recs[u].(pause := true, ready := false)]
          case Triggered(v, out, merged) =>
            && v == u && MayGo(t.recs, db, u, R.NextJob(t.recs[u]).value)
            && u in t'.recs && t'.recs == t.recs[u := t'.recs[u]] && Handed(t.recs[u], t'.recs[u], out, merged))
  {
    TryEntryAborts(t, db, u, act, us);
    PoppedSound(t, u);
    var r := t.recs[u];
    ReadyHasNext(r);
    IsRunnableMeaning(t.recs, db, u, r);
    if MayGo(t.recs, db, u, R.NextJob(r).value) {
      TriggerEntryHanded(r, act, us);
      var (r', out, merged) := R.TriggerEntry(r, act, us).value;
      HandedIds(t.recs, t.ids, u, r', out, merged);
      PoppedPut(t, u, r', Without(t.ids, merged));
    } else {
      V.PauseEntrySettles(r);
      var r' := r.(pause := true, ready := false);
      IdsSameJobs(t.recs, t.ids, u, r');
      PoppedPut(t, u, r', t.ids);
    }
  }

  lemma IdsSameJobs(recs: Recs, ids: map<nat, JobRef>, u: UnitId, r': R.Rec)
    requires IdsOk(recs, ids) && u in recs && r'.suspends == recs[u].suspends && r'.trigger == recs[u].trigger
    ensures IdsOk(recs[u := r'], ids)
  {
    forall v, k, id ensures HeldIn(recs[u := r'], v, k, id) <==> HeldIn(recs, v, k, id) {
    }
  }
}
