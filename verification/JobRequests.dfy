/** What the mode of a request means for the jobs it stages and for those that are suspended
    (process1/src/manager/unit/job/job_entry.rs, job_table.rs, job_transaction.rs). */
module JobRequests {
  import opened Outcomes
  import opened UnitBase
  import opened UnitDep
  import opened JobEntry
  import opened JobExpansion
  import opened JobRules
  import opened JobTransaction
  import opened JobVerify
  import opened JobTableState
  import opened JobTableInvariant
  import opened JobTableCommit
  import opened JobWakeups
  import N = JobManager
  import C = JobTableCommitIds
  import R = JobUnitRecord
  import V = JobUnitInvariant

  // ----- flushing -----

  /** A request that isolates or flushes leaves nothing suspended in a unit that is neither
      staged nor exempt; any other request, or an exempt unit, keeps what was suspended. */
  lemma ModeDrops(t: Tab, w: N.World, mode: JobMode, s: Stage, order: seq<UnitId>, t': Tab, ch: Changes, u: UnitId)
    requires TabInv(t) && StageOk(s) && Enumerates(order, AllUnits(t.recs, s)) && N.Made(t, s, N.EnvOf(w, mode), order, t', ch)
    requires u in t.recs && u !in s.units
    ensures (mode == Isolate || mode == Flush) && u !in w.exempt ==> (u in t'.recs ==> t'.recs[u].suspends == map[])
    ensures !(mode == Isolate || mode == Flush) || u in w.exempt ==> u in t'.recs && t'.recs[u].suspends == t.recs[u].suspends
    ensures u in t'.recs ==> t'.recs[u].trigger == t.recs[u].trigger
  {
    var env := N.EnvOf(w, mode);
    C.CommitInv(t, s, env, order);
    C.AllReady(t, s, env);
    EachBecomes(t.recs, t'.recs, s, env);
    assert Becomes(t.recs, t'.recs, s, env, u);
    assert CanCommit(t.recs, s, env, u);
  }

  /** Where a start and a reload meet the reload stays if the unit is active or reloading, and
      the start if it is not. */
  lemma StartOrReload(t: Tab, s: Stage, env: CommitEnv, order: seq<UnitId>, u: UnitId)
    requires TabInv(t) && StageOk(s) && Enumerates(order, AllUnits(t.recs, s))
    requires Commit(t, s, env, order).Ok? && Commit(t, s, env, order).value.Committed?
    requires u in s.units && Start in s.units[u] && Reload in s.units[u] && Restart !in s.units[u]
    requires u in t.recs ==> Restart !in t.recs[u].suspends
    ensures
      var recs' := Commit(t, s, env, order).value.tab.recs;
      u in recs' && (Reload in recs'[u].suspends <==> UpUnit(env.active, u)) && (Start in recs'[u].suspends <==> !UpUnit(env.active, u))
  {
    C.CommitInv(t, s, env, order);
    C.AllReady(t, s, env);
    var recs' := Commit(t, s, env, order).value.tab.recs;
    EachBecomes(t.recs, recs', s, env);
    assert Becomes(t.recs, recs', s, env, u) && CanCommit(t.recs, s, env, u);
    MeetingJobs(OldRec(t.recs, u).suspends, s.units[u], ActiveOf(env, u));
  }

  lemma MeetingJobs(was: R.Suspends, o: R.Suspends, us: ActiveState)
    requires R.Consistent(was) && R.Consistent(o) && Start in o && Reload in o && Restart !in o && Restart !in was
    ensures
      var all := R.NormalForm(R.Union(V.MergeBase(was, o), o), us);
      && (Reload in all <==> us.UnitActive? || us.UnitReloading?) && (Start in all <==> !(us.UnitActive? || us.UnitReloading?))
  {
    V.MergeBaseMeaning(was, o);
    V.UnionConsistent(V.MergeBase(was, o), o);
    var all := R.Union(V.MergeBase(was, o), o);
    assert Start in all && Reload in all && Restart !in all && Stop !in all;
  }

  // ----- stopping what triggers a unit -----

  /** A stop in trigger mode also stops every unit that triggers the unit, from the insertion of
      that edge on. */
  lemma TriggerModeStops(t: Table, u: UnitId, v: UnitId, reference: bool, mask: U16, w: N.World, items: set<Item>)
    requires u != v && Represents(w.db, Inserted(t, v, Triggers, u, reference, mask)) && N.Requested(w, u, Stop, Trigger, items)
    ensures Item(u, Stop) in items && Item(v, Stop) in items
  {
    InsertedEdge(t, v, Triggers, u, TriggeredBy, reference, mask);
    var us := Gets(w.db, u, AtomTriggeredBy);
    assert Answers(Inserted(t, v, Triggers, u, reference, mask), u, AtomTriggeredBy, v);
    assert v in us;
    var roots := {Mapped(w.active, u, Stop)} + StopsFor(us);
    assert Item(u, Stop) in roots && Item(v, Stop) in roots;
  }

  // ----- the attributes of jobs -----

  /** What a request makes of the jobs it stages: they are irreversible in one mode, and ignore
      the ordering in one, or as nops. */
  lemma StagedAttributes(units: Units, ids: map<nat, JobRef>, mode: JobMode, u: UnitId, k: JobKind)
    requires StageFine(units, ids, mode) && u in units && k in units[u]
    ensures units[u][k].irreversible <==> mode == ReplaceIrreversible
    ensures units[u][k].ignoreOrder <==> mode == IgnoreDependencies || k == Nop
    ensures units[u][k].kind == k && units[u][k].unit == u && units[u][k].stage == Init
  {
    assert IsBasic(k) && units[u][k] == NewJob(units[u][k].id, u, k, mode);
  }

  /** After a commit a suspended job is irreversible exactly when it was and was kept, or when
      the job of its kind that was staged is; and in the same way it ignores the ordering. */
  lemma AttributesIff(t: Tab, s: Stage, env: CommitEnv, order: seq<UnitId>, u: UnitId, k: JobKind)
    requires TabInv(t) && StageOk(s) && Enumerates(order, AllUnits(t.recs, s))
    requires Commit(t, s, env, order).Ok? && Commit(t, s, env, order).value.Committed?
    ensures
      var recs' := Commit(t, s, env, order).value.tab.recs;
      u in recs' && k in recs'[u].suspends ==>
        (recs'[u].suspends[k].irreversible <==>
           (u in t.recs && !Dropped(t.recs, s, env, u) && k in t.recs[u].suspends && t.recs[u].suspends[k].irreversible) ||
           (u in s.units && k in s.units[u] && s.units[u][k].irreversible)) &&
        (recs'[u].suspends[k].ignoreOrder <==>
           (u in t.recs && !Dropped(t.recs, s, env, u) && k in t.recs[u].suspends && t.recs[u].suspends[k].ignoreOrder) ||
           (u in s.units && k in s.units[u] && s.units[u][k].ignoreOrder))
  {
    C.CommitInv(t, s, env, order);
    C.AllReady(t, s, env);
    var recs' := Commit(t, s, env, order).value.tab.recs;
    EachBecomes(t.recs, recs', s, env);
    if u in recs' && k in recs'[u].suspends {
      assert Becomes(t.recs, recs', s, env, u);
      if u in s.units {
        UnionAttributes(OldRec(t.recs, u).suspends, s.units[u], ActiveOf(env, u), k);
      }
    }
  }

  lemma UnionAttributes(was: R.Suspends, o: R.Suspends, us: ActiveState, k: JobKind)
    ensures
      var all := R.NormalForm(R.Union(V.MergeBase(was, o), o), us);
      k in all ==>
        (all[k].irreversible <==>
           (!R.IsConflictWith(was, o) && k in was && was[k].irreversible) || (k in o && o[k].irreversible)) &&
        (all[k].ignoreOrder <==>
           (!R.IsConflictWith(was, o) && k in was && was[k].ignoreOrder) || (k in o && o[k].ignoreOrder))
  {
    var base := V.MergeBase(was, o);
    var all := R.NormalForm(R.Union(base, o), us);
    if k in all {
      assert k in R.Union(base, o) && all[k] == R.Union(base, o)[k];
    }
  }

  /** So what was requested irreversibly stays: no later request, of whatever mode but isolation
      and flush, passes the check and drops what its unit has suspended. */
  lemma IrreversibleProtects(t: Tab, s: Stage, mode: JobMode, env: CommitEnv, order: seq<UnitId>, u: UnitId, k: JobKind,
                             units: Units, mode2: JobMode)
    requires TabInv(t) && StageOk(s) && Enumerates(order, AllUnits(t.recs, s)) && StageFine(s.units, s.ids, mode)
    requires Commit(t, s, env, order).Ok? && Commit(t, s, env, order).value.Committed?
    requires mode == ReplaceIrreversible && u in s.units && k in s.units[u]
    ensures
      var recs' := Commit(t, s, env, order).value.tab.recs;
      u in recs' && k in recs'[u].suspends && VerifyStage(units, recs', mode2) == Ok(true) && u in units ==>
        !(Stop in recs'[u].suspends && R.HasOther(units[u])) && !(Stop in units[u] && R.HasOther(recs'[u].suspends))
  {
    StagedAttributes(s.units, s.ids, mode, u, k);
    AttributesIff(t, s, env, order, u, k);
    C.CommitInv(t, s, env, order);
    var recs' := Commit(t, s, env, order).value.tab.recs;
    if u in recs' && k in recs'[u].suspends && VerifyStage(units, recs', mode2) == Ok(true) && u in units {
      VerifyMeaning(units, recs', mode2);
      assert GivesWay(recs', units, mode2, u);
      R.ConflictWithMeaning(recs'[u].suspends, units[u]);
    }
  }
}
