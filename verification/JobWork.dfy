/** How much is still to be done: the phases not yet started of all jobs. Every unit that
    is triggered uses one up, and nothing but a commit adds any, which is why the
    scheduler's loop ends. */
module JobWork {
  import opened Outcomes
  import opened UnitBase
  import opened JobEntry
  import opened JobTableState
  import opened JobTableInvariant
  import opened JobTableSteps
  import R = JobUnitRecord
  import V = JobUnitInvariant

  function KindWork(k: JobKind): nat {
    if k.Restart? then 3 else 1
  }

  function WorkIf(s: R.Suspends, k: JobKind): nat {
    if k in s then KindWork(k) else 0
  }

  function SuspWork(s: R.Suspends): nat {
    WorkIf(s, Start) + WorkIf(s, Stop) + WorkIf(s, Reload) + WorkIf(s, Restart) + WorkIf(s, Verify) + WorkIf(s, Nop)
  }

  function RecWork(r: R.Rec): nat {
    SuspWork(r.suspends) + if r.trigger.Some? then PhasesLeft(r.trigger.value) else 0
  }

  ghost function Work(recs: Recs): nat {
    if recs == map[] then 0
    else
      var u :| u in recs;
      RecWork(recs[u]) + Work(recs - {u})
  }

  lemma {:induction false} WorkAt(recs: Recs, u: UnitId)
    requires u in recs
    ensures Work(recs) == RecWork(recs[u]) + Work(recs - {u})
    decreases |recs|
  {
    var v :| v in recs && Work(recs) == RecWork(recs[v]) + Work(recs - {v});
    if v != u {
      WorkAt(recs - {v}, u);
      WorkAt(recs - {u}, v);
      assert recs - {u} - {v} == recs - {v} - {u};
    }
  }

  /** Every unit has at most as much left as before. */
  predicate NoMore(recs: Recs, recs': Recs) {
    recs'.Keys <= recs.Keys && forall u :: u in recs' ==> RecWork(recs'[u]) <= RecWork(recs[u])
  }

  lemma {:induction false} WorkShrinks(recs: Recs, recs': Recs)
    requires NoMore(recs, recs')
    ensures Work(recs') <= Work(recs)
    decreases |recs|
  {
    if recs != map[] {
      var u :| u in recs;
      WorkAt(recs, u);
      WorkShrinks(recs - {u}, recs' - {u});
      if u in recs' {
        WorkAt(recs', u);
      } else {
        assert recs' - {u} == recs';
      }
    }
  }

  lemma WorkPut(recs: Recs, u: UnitId, r: R.Rec)
    requires u in recs
    ensures Work(recs[u := r]) - RecWork(r) == Work(recs) - RecWork(recs[u])
  {
    WorkAt(recs, u);
    WorkAt(recs[u := r], u);
    assert recs[u := r] - {u} == recs - {u};
  }

  // ----- the steps -----

  lemma SuspWorkLess(s: R.Suspends, s': R.Suspends)
    requires s'.Keys <= s.Keys
    ensures SuspWork(s') <= SuspWork(s)
  {
  }

  lemma PromoteWork(s: R.Suspends, k: JobKind)
    requires k in s && IsBasic(k)
    ensures SuspWork(s) == SuspWork(s - {k}) + KindWork(k)
  {
  }

  /** A job handed over for the first time starts one of its phases. */
  lemma PromotedWork(r: R.Rec, r': R.Rec, k: JobKind)
    requires V.WaitingJobs(r.suspends) && k in r.suspends
    requires r'.suspends == r.suspends - {k} && r'.trigger == Some(r.suspends[k].(stage := Running))
    ensures RecWork(r') < RecWork(r)
  {
    var j := r.suspends[k];
    assert j.kind == k && IsBasic(k) && j.runKind == RunKindNew(k);
    PromoteWork(r.suspends, k);
    assert PhasesLeft(j.(stage := Running)) == KindWork(k) - 1;
  }

  /** So does a restart handed over for its start phase. */
  lemma RestartedWork(r: R.Rec, r': R.Rec)
    requires V.StartPhaseDue(r) && r'.suspends == r.suspends && r'.trigger == Some(r.trigger.value.(stage := Running))
    ensures RecWork(r') < RecWork(r)
  {
  }

  lemma HandedWork(r: R.Rec, r': R.Rec, out: RunOutcome, merged: Option<Job>, act: Option<ActionError>, us: ActiveState)
    requires V.Settled(r) && R.QueueSound(r) && r.ready && Handed(r, r', out, merged) && !V.TriggerAborts(r, act, us)
    ensures RecWork(r') < RecWork(r)
  {
    if V.QueueDue(r) {
      PromotedWork(r, r', r.sq[0]);
    } else {
      RestartedWork(r, r');
    }
  }

  lemma FinishedWork(r: R.Rec, result: JobResult)
    requires V.Settled(r) && r.trigger.Some? && CanFinish(r.trigger.value)
    ensures RecWork(V.FinishedRec(r, result)) <= RecWork(r)
  {
    FinishRetriesIff(r.trigger.value, result);
  }

  lemma RewrittenWork(recs: Recs, recs': Recs, u: UnitId, r': R.Rec)
    requires u in recs && Rewritten(recs, recs', u, r') && RecWork(r') <= RecWork(recs[u])
    ensures Work(recs') <= Work(recs)
  {
    forall v | v in recs' ensures RecWork(recs'[v]) <= RecWork(recs[v]) {
      assert Resumed(if v == u then r' else recs[v], recs'[v]);
    }
    WorkShrinks(recs, recs');
  }

  lemma FinishWork(t: Tab, db: Db, u: UnitId, result: JobResult)
    requires TabInv(t) && FinishTrigger(t, db, u, result).Ok?
    ensures Work(FinishTrigger(t, db, u, result).value.0.recs) <= Work(t.recs)
  {
    FinishTriggerInv(t, db, u, result);
    FinishedWork(t.recs[u], result);
    RewrittenWork(t.recs, FinishTrigger(t, db, u, result).value.0.recs, u, V.FinishedRec(t.recs[u], result));
  }

  lemma RemoveWork(t: Tab, db: Db, u: UnitId, k1: JobKind, k2: Option<JobKind>, result: JobResult, us: ActiveState)
    requires TabInv(t) && RemoveSuspends(t, db, u, k1, k2, result, us).Ok?
    ensures Work(RemoveSuspends(t, db, u, k1, k2, result, us).value.recs) <= Work(t.recs)
  {
    RemoveSuspendsInv(t, db, u, k1, k2, result, us);
    if u in t.recs {
      V.RemoveEntrySettles(t.recs[u], k1, k2, result, us);
      var r' := R.RemoveEntry(t.recs[u], k1, k2, result, us).value;
      SuspWorkLess(t.recs[u].suspends, r'.suspends);
      RewrittenWork(t.recs, RemoveSuspends(t, db, u, k1, k2, result, us).value.recs, u, r');
    }
  }

  lemma ResumeWork(t: Tab, u: UnitId)
    requires TabInv(t) && ResumeUnit(t, u).Ok?
    ensures Work(ResumeUnit(t, u).value.recs) <= Work(t.recs)
  {
    ResumeUnitInv(t, u);
    WorkShrinks(t.recs, ResumeUnit(t, u).value.recs);
  }

  /** Trying a unit starts a phase, or leaves the work as it is and takes one unit out of
      the ready ones. */
  lemma TryWork(t: Tab, db: Db, order: seq<UnitId>, act: Option<ActionError>, us: ActiveState)
    requires TabInv(t) && AllSound(t.recs) && Enumerates(order, t.ix.tReady) && TryTrigger(t, db, order, act, us).Ok?
    ensures TriedLess(t.recs, TryTrigger(t, db, order, act, us).value.0.recs, TryTrigger(t, db, order, act, us).value.1)
  {
    if Next(t, order).None? {
      TryNothing(t, db, order, act, us);
    } else {
      TrySomething(t, db, order, act, us);
      TryTriggerAborts(t, db, order, act, us);
      var (t', tried) := TryTrigger(t, db, order, act, us).value;
      var u := Next(t, order).value.0;
      if tried.Triggered? {
        HandedWork(t.recs[u], t'.recs[u], tried.out, tried.merged, act, us);
        WorkPut(t.recs, u, t'.recs[u]);
      } else {
        PausedWork(t.recs, u);
      }
    }
  }

  ghost predicate TriedLess(recs: Recs, recs': Recs, tried: Tried) {
    match tried
    case Nothing => recs' == recs
    case Triggered(_, _, _) => Work(recs') < Work(recs)
    case Paused(_) => Work(recs') == Work(recs) && |ReadyUnits(recs')| < |ReadyUnits(recs)|
  }

  lemma PausedWork(recs: Recs, u: UnitId)
    requires u in recs && recs[u].ready
    ensures TriedLess(recs, recs[u := recs[u].(pause := true, ready := false)], Paused(u))
  {
    var recs' := recs[u := recs[u].(pause := true, ready := false)];
    WorkPut(recs, u, recs'[u]);
    assert ReadyUnits(recs) == ReadyUnits(recs') + {u};
  }
}
