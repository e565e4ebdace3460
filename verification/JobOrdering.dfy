/** What an ordering that is stored does to the units: an edge of the store, over whole runs of
    the table (process1/src/manager/unit/unit_datastore/unit_dep.rs, job/job_table.rs). */
module JobOrdering {
  import opened Outcomes
  import opened UnitBase
  import opened UnitDep
  import opened JobEntry
  import opened JobTableState
  import opened JobTableInvariant
  import opened JobTableRuns

  /** An edge that puts `u` after `v` has been stored, from either end. */
  predicate PutsAfter(t0: Table, t: Table, u: UnitId, v: UnitId, reference: bool, mask: U16) {
    u != v && (t == Inserted(t0, u, AfterRel, v, reference, mask) || t == Inserted(t0, v, BeforeRel, u, reference, mask))
  }

  lemma EdgeOrders(t0: Table, t: Table, u: UnitId, v: UnitId, reference: bool, mask: U16, db: Db)
    requires PutsAfter(t0, t, u, v, reference, mask) && Represents(db, t)
    ensures v in Gets(db, u, AtomAfter) && u in Gets(db, v, AtomBefore)
  {
    if t == Inserted(t0, u, AfterRel, v, reference, mask) {
      InsertedEdge(t0, u, AfterRel, v, BeforeRel, reference, mask);
    } else {
      InsertedEdge(t0, v, BeforeRel, u, AfterRel, reference, mask);
    }
    assert Answers(t, u, AtomAfter, v) && Answers(t, v, AtomBefore, u);
  }

  /** A job that minds the ordering. */
  predicate Minds(j: Job) {
    !j.ignoreOrder && !j.kind.Nop?
  }

  /** With `u` stored after `v`: a job of `u` that does not stop it, a start in particular, is not
      handed over while `v` has a job, suspended or running; and no job of `v` is while `u` has a
      stop or restart. Over every run between commits. */
  lemma AfterEdgeHolds(t0: Table, t: Table, u: UnitId, v: UnitId, reference: bool, mask: U16, db: Db,
                       ts: seq<Tab>, steps: seq<Step>, ju: Job, jv: Job, i: nat)
    requires PutsAfter(t0, t, u, v, reference, mask) && Represents(db, t)
    requires IsRun(db, ts, steps) && TabInv(ts[0]) && i < |ts| && forall n :: 0 <= n < |steps| ==> !steps[n].DoCommit?
    requires Minds(ju) && Minds(jv)
    ensures !ju.kind.Stop? && !ju.kind.Restart? && !RunsJob(ts[0].recs, u, ju) && HasJob(ts[i].recs, v, jv) ==>
      !RunsJob(ts[i].recs, u, ju)
    ensures (ju.kind.Stop? || ju.kind.Restart?) && !RunsJob(ts[0].recs, v, jv) && HasJob(ts[i].recs, u, ju) ==>
      !RunsJob(ts[i].recs, v, jv)
  {
    EdgeOrders(t0, t, u, v, reference, mask, db);
    AfterMeans(db, v, jv, u, ju);
    if ju.kind.Stop? || ju.kind.Restart? {
      if !RunsJob(ts[0].recs, v, jv) {
        OrderSafety(db, ts, steps, u, ju, v, jv, i);
      }
    } else if !RunsJob(ts[0].recs, u, ju) {
      OrderSafety(db, ts, steps, v, jv, u, ju, i);
    }
  }
}
