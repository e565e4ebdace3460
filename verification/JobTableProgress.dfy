/** Nothing is forgotten and nothing gets stuck: a unit that is paused is blocked by
    a related unit until that unit resumes it, and on acyclic orderings some unit can
    always go ahead. */
module JobTableProgress {
  import opened Outcomes
  import opened UnitBase
  import opened JobEntry
  import opened JobTableState
  import opened JobTableInvariant
  import opened JobTableSteps
  import opened JobTableCommit
  import opened JobTableRuns
  import C = JobTableCommitIds
  import R = JobUnitRecord
  import V = JobUnitInvariant

  // ----- no lost wakeup -----

  /** Paused, although its first queued job is due and is not a nop. */
  predicate Waiting(r: R.Rec) {
    r.pause && R.CalcNatural(r) == Ok(Some(true)) && r.sq != [] && !r.sq[0].Nop?
  }

  /** `v` holds a job that has to go before `j` of `u`. */
  predicate BlockedBy(recs: Recs, db: Db, u: UnitId, j: Job, v: UnitId) {
    v in recs &&
    ((v in Gets(db, u, AtomAfter) && R.Blocks(recs[v], j, After)) ||
     (v in Gets(db, u, AtomBefore) && R.Blocks(recs[v], j, Before)))
  }

  predicate Blocked(recs: Recs, db: Db, u: UnitId, j: Job) {
    exists v :: v in recs && BlockedBy(recs, db, u, j, v)
  }

  predicate HeldUp(recs: Recs, db: Db, u: UnitId)
    requires u in recs && R.QueueSound(recs[u])
  {
    Waiting(recs[u]) && recs[u].order ==> Blocked(recs, db, u, recs[u].suspends[recs[u].sq[0]])
  }

  /** Every paused unit is paused for a reason that still holds. */
  predicate NoLostWakeup(recs: Recs, db: Db)
    requires AllSound(recs)
  {
    forall u :: u in recs ==> HeldUp(recs, db, u)
  }

  /** Only nops ignore the ordering. */
  predicate Orderly(r: R.Rec) {
    && (forall k :: k in r.suspends && !k.Nop? ==> !r.suspends[k].ignoreOrder)
    && (r.trigger.Some? && !r.trigger.value.kind.Nop? ==> !r.trigger.value.ignoreOrder)
  }

  predicate AllOrderly(recs: Recs) {
    forall u :: u in recs ==> Orderly(recs[u])
  }

  /** The dependency store mirrors its ordering edges and has no self edges. */
  ghost predicate WellOrdered(db: Db) {
    OrderMirrored(db) && forall u: UnitId :: !Related(db, u, u)
  }

  lemma RelatedSymmetric(db: Db, u: UnitId, v: UnitId)
    requires OrderMirrored(db)
    ensures Related(db, u, v) <==> Related(db, v, u)
  {
    assert v in Gets(db, u, AtomAfter) <==> u in Gets(db, v, AtomBefore);
    assert u in Gets(db, v, AtomAfter) <==> v in Gets(db, u, AtomBefore);
  }

  lemma MayGoOrBlocked(recs: Recs, db: Db, u: UnitId, j: Job)
    requires !Exempt(j)
    ensures MayGo(recs, db, u, j) <==> !Blocked(recs, db, u, j)
  {
    if !MayGo(recs, db, u, j) {
      if v :| v in Gets(db, u, AtomAfter) && v in recs && R.Blocks(recs[v], j, After) {
        assert BlockedBy(recs, db, u, j, v);
      } else {
        var v :| v in Gets(db, u, AtomBefore) && v in recs && R.Blocks(recs[v], j, Before);
        assert BlockedBy(recs, db, u, j, v);
      }
    }
  }

  /** Blocking only depends on which jobs a unit holds. */
  lemma BlocksSameJobs(o: R.Rec, o': R.Rec, j: Job, atom: OrderAtom)
    requires o'.suspends == o.suspends && o'.trigger == o.trigger
    ensures R.Blocks(o', j, atom) <==> R.Blocks(o, j, atom)
  {
  }

  /** What makes a held job block: it is not a nop, and either the waiting job comes
      after it and does not stop, or comes before it and the held job stops. */
  lemma OrderWithMeans(j: Job, h: Job, atom: OrderAtom)
    requires !j.kind.Nop? && !j.ignoreOrder
    ensures IsOrderWith(j, h, atom) > 0 <==>
      !h.ignoreOrder && !h.kind.Nop? && if atom.After? then !IsStopping(j.kind) else IsStopping(h.kind)
  {
    if atom.After? && !h.kind.Nop? {
      assert OrderCompare(j.kind, h.kind, After) == -OrderCompare(h.kind, j.kind, Before);
    }
  }

  /** Handing a job over does not unblock anyone: the job is still held, and a trigger
      is only interrupted by a stop or restart, which blocks all it blocked. */
  lemma HandedStillBlocks(r: R.Rec, r': R.Rec, out: RunOutcome, merged: Option<Job>, j: Job, atom: OrderAtom)
    requires V.Settled(r) && R.QueueSound(r) && r.ready && Handed(r, r', out, merged) && Orderly(r)
    requires !Exempt(j) && R.Blocks(r, j, atom)
    ensures R.Blocks(r', j, atom)
  {
    ReadyHasNext(r);
    if V.QueueDue(r) {
      HandedQueueBlocks(r, r', j, atom);
    } else {
      assert IsOrderWith(j, r'.trigger.value, atom) == IsOrderWith(j, r.trigger.value, atom);
    }
  }

  lemma HandedQueueBlocks(r: R.Rec, r': R.Rec, j: Job, atom: OrderAtom)
    requires r.sq != [] && r.sq[0] in r.suspends && r.suspends[r.sq[0]].kind == r.sq[0] && Orderly(r)
    requires r.trigger.Some? ==> IsStopping(r.sq[0])
    requires r'.suspends == r.suspends - {r.sq[0]}
    requires r'.trigger == Some(r.suspends[r.sq[0]].(stage := Running))
    requires !Exempt(j) && R.Blocks(r, j, atom)
    ensures R.Blocks(r', j, atom)
  {
    var k := r.sq[0];
    OrderWithMeans(j, r.suspends[k], atom);
    assert IsOrderWith(j, r'.trigger.value, atom) == IsOrderWith(j, r.suspends[k], atom);
    if k2 :| k2 in r.suspends && IsOrderWith(j, r.suspends[k2], atom) > 0 {
      if k2 != k {
        assert k2 in r'.suspends && IsOrderWith(j, r'.suspends[k2], atom) > 0;
      }
    } else {
      OrderWithMeans(j, r.trigger.value, atom);
    }
  }

  /** What blocked `j` of `u` still blocks it. */
  lemma BlockedStill(recs: Recs, recs': Recs, db: Db, u: UnitId, j: Job)
    requires Blocked(recs, db, u, j)
    requires forall v :: v in recs && Related(db, u, v) ==>
      (R.Blocks(recs[v], j, After) ==> v in recs' && R.Blocks(recs'[v], j, After)) &&
      (R.Blocks(recs[v], j, Before) ==> v in recs' && R.Blocks(recs'[v], j, Before))
    ensures Blocked(recs', db, u, j)
  {
    var v :| v in recs && BlockedBy(recs, db, u, j, v);
    assert BlockedBy(recs', db, u, j, v);
  }

  lemma NextOfWaiting(r: R.Rec)
    requires V.Settled(r) && R.QueueSound(r) && Waiting(r) && Orderly(r)
    ensures r.sq[0] in r.suspends && !Exempt(r.suspends[r.sq[0]])
  {
  }

  // ----- trying -----

  /** A unit that waits for a related one: the blockers of its next job. */
  lemma PausedOther(recs: Recs, db: Db, x: UnitId, r': R.Rec, u: UnitId, j: Job)
    requires x in recs && r'.suspends == recs[x].suspends && r'.trigger == recs[x].trigger
    requires Blocked(recs, db, u, j)
    ensures Blocked(recs[x := r'], db, u, j)
  {
    forall v | v in recs && Related(db, u, v)
      ensures R.Blocks(recs[v], j, After) ==> R.Blocks(recs[x := r'][v], j, After)
      ensures R.Blocks(recs[v], j, Before) ==> R.Blocks(recs[x := r'][v], j, Before)
    {
      BlocksSameJobs(recs[v], recs[x := r'][v], j, After);
      BlocksSameJobs(recs[v], recs[x := r'][v], j, Before);
    }
    BlockedStill(recs, recs[x := r'], db, u, j);
  }

  lemma PausedHeldUp(recs: Recs, db: Db, x: UnitId, r': R.Rec, u: UnitId)
    requires x in recs && V.Settled(recs[x]) && R.QueueSound(recs[x]) && recs[x].ready && Orderly(recs[x])
    requires r' == recs[x].(pause := true, ready := false)
    requires R.NextJob(recs[x]).Ok? && !MayGo(recs, db, x, R.NextJob(recs[x]).value)
    requires u in recs && R.QueueSound(recs[u]) && R.QueueSound(r') && HeldUp(recs, db, u)
    ensures HeldUp(recs[x := r'], db, u)
  {
    var r1 := recs[x := r'][u];
    if Waiting(r1) && r1.order {
      var j := r1.suspends[r1.sq[0]];
      if u == x {
        ReadyHasNext(recs[x]);
        assert V.QueueDue(recs[x]);
        MayGoOrBlocked(recs, db, u, j);
      }
      PausedOther(recs, db, x, r', u, j);
    }
  }

  lemma TriggeredNotWaiting(r: R.Rec, r': R.Rec, out: RunOutcome, merged: Option<Job>)
    requires V.Settled(r) && R.QueueSound(r) && r.ready && Handed(r, r', out, merged)
    ensures !Waiting(r')
  {
    ReadyHasNext(r);
  }

  lemma TriggeredHeldUp(recs: Recs, db: Db, x: UnitId, r': R.Rec, out: RunOutcome, merged: Option<Job>, u: UnitId)
    requires x in recs && V.Settled(recs[x]) && R.QueueSound(recs[x]) && recs[x].ready && Orderly(recs[x])
    requires Handed(recs[x], r', out, merged)
    requires u in recs && V.Settled(recs[u]) && R.QueueSound(recs[u]) && R.QueueSound(r') && Orderly(recs[u])
    requires HeldUp(recs, db, u)
    ensures HeldUp(recs[x := r'], db, u)
  {
    TriggeredNotWaiting(recs[x], r', out, merged);
    if u != x && Waiting(recs[u]) {
      NextOfWaiting(recs[u]);
      TriggeredOther(recs, db, x, r', out, merged, u, recs[u].suspends[recs[u].sq[0]]);
    }
  }

  lemma TriggeredOther(recs: Recs, db: Db, x: UnitId, r': R.Rec, out: RunOutcome, merged: Option<Job>, u: UnitId, j: Job)
    requires x in recs && V.Settled(recs[x]) && R.QueueSound(recs[x]) && recs[x].ready && Orderly(recs[x])
    requires Handed(recs[x], r', out, merged) && !Exempt(j) && Blocked(recs, db, u, j)
    ensures Blocked(recs[x := r'], db, u, j)
  {
    HandedEach(recs[x], r', out, merged, j);
    BlockedStill(recs, recs[x := r'], db, u, j);
  }

  lemma HandedEach(r: R.Rec, r': R.Rec, out: RunOutcome, merged: Option<Job>, j: Job)
    requires V.Settled(r) && R.QueueSound(r) && r.ready && Handed(r, r', out, merged) && Orderly(r) && !Exempt(j)
    ensures R.Blocks(r, j, After) ==> R.Blocks(r', j, After)
    ensures R.Blocks(r, j, Before) ==> R.Blocks(r', j, Before)
  {
    if R.Blocks(r, j, After) {
      HandedStillBlocks(r, r', out, merged, j, After);
    }
    if R.Blocks(r, j, Before) {
      HandedStillBlocks(r, r', out, merged, j, Before);
    }
  }

  /** Trying a unit keeps every paused unit blocked. */
  lemma TryKeepsWakeups(t: Tab, db: Db, order: seq<UnitId>, act: Option<ActionError>, us: ActiveState)
    requires TabInv(t) && AllSound(t.recs) && Enumerates(order, t.ix.tReady) && WellOrdered(db)
    requires AllOrderly(t.recs) && NoLostWakeup(t.recs, db)
    requires TryTrigger(t, db, order, act, us).Ok?
    ensures
      var recs' := TryTrigger(t, db, order, act, us).value.0.recs;
      AllSound(recs') && NoLostWakeup(recs', db)
  {
    TryTriggerAborts(t, db, order, act, us);
    var (t', tried) := TryTrigger(t, db, order, act, us).value;
    if Next(t, order).None? {
      TryNothing(t, db, order, act, us);
    } else {
      TrySomething(t, db, order, act, us);
      CoreSound(t', {});
      var x := Next(t, order).value.0;
      forall u | u in t'.recs ensures HeldUp(t'.recs, db, u) {
        if tried.Paused? {
          PausedHeldUp(t.recs, db, x, t'.recs[x], u);
        } else {
          TriggeredHeldUp(t.recs, db, x, t'.recs[x], tried.out, tried.merged, u);
        }
      }
    }
  }

  // ----- finishing, removing, resuming -----

  /** A rewritten unit resumes everything related to it, so whoever stays paused was
      blocked by others, and still is. */
  lemma RewriteHeldUp(recs: Recs, recs': Recs, db: Db, x: UnitId, r': R.Rec, u: UnitId)
    requires x in recs && Rewritten(recs, recs', x, r') && RelatedResumed(recs', db, x) && OrderMirrored(db)
    requires u != x && u in recs' && R.QueueSound(recs[u]) && R.QueueSound(recs'[u]) && HeldUp(recs, db, u)
    ensures HeldUp(recs', db, u)
  {
    if Waiting(recs'[u]) && recs'[u].order {
      assert recs'[u] == recs[u];
      RelatedSymmetric(db, u, x);
      OthersStillBlock(recs, recs', db, x, r', u, recs[u].suspends[recs[u].sq[0]]);
    }
  }

  lemma OthersStillBlock(recs: Recs, recs': Recs, db: Db, x: UnitId, r': R.Rec, u: UnitId, j: Job)
    requires x in recs && Rewritten(recs, recs', x, r') && !Related(db, u, x)
    requires Blocked(recs, db, u, j)
    ensures Blocked(recs', db, u, j)
  {
    forall v | v in recs && Related(db, u, v)
      ensures R.Blocks(recs[v], j, After) ==> v in recs' && R.Blocks(recs'[v], j, After)
      ensures R.Blocks(recs[v], j, Before) ==> v in recs' && R.Blocks(recs'[v], j, Before)
    {
      assert v != x && v in recs';
      BlocksSameJobs(recs[v], recs'[v], j, After);
      BlocksSameJobs(recs[v], recs'[v], j, Before);
    }
    BlockedStill(recs, recs', db, u, j);
  }

  /** Finishing the trigger of a unit that is not paused keeps every paused unit blocked. */
  lemma FinishKeepsWakeups(t: Tab, db: Db, x: UnitId, result: JobResult)
    requires TabInv(t) && AllSound(t.recs) && WellOrdered(db) && NoLostWakeup(t.recs, db)
    requires FinishTrigger(t, db, x, result).Ok? && !t.recs[x].pause
    ensures
      var recs' := FinishTrigger(t, db, x, result).value.0.recs;
      AllSound(recs') && NoLostWakeup(recs', db)
  {
    FinishTriggerInv(t, db, x, result);
    var t' := FinishTrigger(t, db, x, result).value.0;
    CoreSound(t', {});
    var r' := V.FinishedRec(t.recs[x], result);
    forall u | u in t'.recs ensures HeldUp(t'.recs, db, u) {
      if u == x {
        assert !t'.recs[x].pause;
      } else {
        RewriteHeldUp(t.recs, t'.recs, db, x, r', u);
      }
    }
  }

  /** After a removal the next job is the one it was, or one that does not stop the
      unit; whatever blocked the former blocks the latter. */
  lemma LaterBlockedToo(o: R.Rec, j: Job, j': Job, atom: OrderAtom)
    requires !Exempt(j) && !Exempt(j') && (j' == j || !IsStopping(j'.kind))
    requires R.Blocks(o, j, atom)
    ensures R.Blocks(o, j', atom)
  {
    if k :| k in o.suspends && IsOrderWith(j, o.suspends[k], atom) > 0 {
      OrderWithMeans(j, o.suspends[k], atom);
      OrderWithMeans(j', o.suspends[k], atom);
    } else {
      OrderWithMeans(j, o.trigger.value, atom);
      OrderWithMeans(j', o.trigger.value, atom);
    }
  }

  lemma QueueAfterRemoval(s: R.Suspends, k1: JobKind, k2: Option<JobKind>)
    requires R.Normal(s)
    ensures
      var q, q' := R.QueueOf(s), R.QueueOf(V.Remaining(s, k1, k2));
      q' != [] && !q'[0].Nop? ==>
        q != [] && !q[0].Nop? && q'[0] in s && (q'[0] == q[0] || !IsStopping(q'[0]))
  {
  }

  lemma RemovedQueue(r: R.Rec, r': R.Rec, k1: JobKind, k2: Option<JobKind>)
    requires V.WaitingJobs(r.suspends) && R.Normal(r.suspends) && V.QueueOk(r)
    requires r'.suspends == V.Remaining(r.suspends, k1, k2) && r'.sq == R.QueueOf(r'.suspends)
    requires r'.sq != [] && !r'.sq[0].Nop?
    ensures r.sq != [] && !r.sq[0].Nop? && r.sq[0] in r.suspends
    ensures r'.sq[0] in r'.suspends && r'.sq[0] in r.suspends && r'.suspends[r'.sq[0]] == r.suspends[r'.sq[0]]
    ensures r'.sq[0] == r.sq[0] || !IsStopping(r'.sq[0])
  {
    QueueAfterRemoval(r.suspends, k1, k2);
    assert R.QueueOf(r.suspends)[0] != Nop;
    R.QueueOfMeaning(r.suspends);
    V.RemainingKeeps(r.suspends, k1, k2);
    R.QueueOfMeaning(r'.suspends);
  }

  lemma RemovedNatural(r: R.Rec, r': R.Rec)
    requires V.FlagsOk(r) && r'.order && r'.trigger == r.trigger && r'.pause == r.pause
    requires r'.interrupt == (if r.trigger.Some? && r'.sq != [] then IsStopping(r'.sq[0]) else r.interrupt)
    requires Waiting(r') && r.sq != [] && !r.sq[0].Nop? && (r'.sq[0] == r.sq[0] || !IsStopping(r'.sq[0]))
    ensures Waiting(r)
  {
  }

  /** A unit that is paused after a removal of its own jobs was paused, and waiting,
      before it. */
  lemma RemovedWasWaiting(r: R.Rec, k1: JobKind, k2: Option<JobKind>, result: JobResult, us: ActiveState)
    requires V.Settled(r) && R.RemoveEntry(r, k1, k2, result, us).Ok?
    requires Waiting(R.RemoveEntry(r, k1, k2, result, us).value)
    ensures
      var r' := R.RemoveEntry(r, k1, k2, result, us).value;
      Waiting(r) && r'.sq[0] in r'.suspends && r'.sq[0] in r.suspends && r.sq[0] in r.suspends &&
      r'.suspends[r'.sq[0]] == r.suspends[r'.sq[0]] && (r'.sq[0] == r.sq[0] || !IsStopping(r'.sq[0]))
  {
    V.RemoveEntrySettles(r, k1, k2, result, us);
    var r' := R.RemoveEntry(r, k1, k2, result, us).value;
    RemovedQueue(r, r', k1, k2);
    RemovedNatural(r, r');
  }

  lemma RemovedHeldUp(recs: Recs, recs': Recs, db: Db, x: UnitId, r': R.Rec)
    requires x in recs && Rewritten(recs, recs', x, r') && !Related(db, x, x)
    requires R.QueueSound(recs[x]) && R.QueueSound(r') && HeldUp(recs, db, x) && recs[x].order
    requires Waiting(r') ==>
      Waiting(recs[x]) && recs[x].sq[0] in recs[x].suspends && r'.sq[0] in r'.suspends &&
      !Exempt(recs[x].suspends[recs[x].sq[0]]) && !Exempt(r'.suspends[r'.sq[0]]) &&
      (r'.suspends[r'.sq[0]] == recs[x].suspends[recs[x].sq[0]] || !IsStopping(r'.suspends[r'.sq[0]].kind))
    requires x in recs' && R.QueueSound(recs'[x])
    ensures HeldUp(recs', db, x)
  {
    if Waiting(recs'[x]) {
      assert recs'[x] == r';
      var j, j' := recs[x].suspends[recs[x].sq[0]], r'.suspends[r'.sq[0]];
      OthersStillBlock(recs, recs', db, x, r', x, j);
      var v :| v in recs' && BlockedBy(recs', db, x, j, v);
      if R.Blocks(recs'[v], j, After) {
        LaterBlockedToo(recs'[v], j, j', After);
      }
      if R.Blocks(recs'[v], j, Before) {
        LaterBlockedToo(recs'[v], j, j', Before);
      }
      assert BlockedBy(recs', db, x, j', v);
    }
  }

  lemma RemovedNext(r: R.Rec, k1: JobKind, k2: Option<JobKind>, result: JobResult, us: ActiveState)
    requires V.Settled(r) && R.QueueSound(r) && Orderly(r) && R.RemoveEntry(r, k1, k2, result, us).Ok?
    ensures
      var r' := R.RemoveEntry(r, k1, k2, result, us).value;
      Waiting(r') ==>
        Waiting(r) && r.sq[0] in r.suspends && r'.sq[0] in r'.suspends &&
        !Exempt(r.suspends[r.sq[0]]) && !Exempt(r'.suspends[r'.sq[0]]) &&
        (r'.suspends[r'.sq[0]] == r.suspends[r.sq[0]] || !IsStopping(r'.suspends[r'.sq[0]].kind))
  {
    var r' := R.RemoveEntry(r, k1, k2, result, us).value;
    if Waiting(r') {
      RemovedWasWaiting(r, k1, k2, result, us);
    }
  }

  /** Removing suspended jobs keeps every paused unit blocked. */
  lemma RemoveKeepsWakeups(t: Tab, db: Db, x: UnitId, k1: JobKind, k2: Option<JobKind>, result: JobResult, us: ActiveState)
    requires TabInv(t) && AllSound(t.recs) && WellOrdered(db) && AllOrderly(t.recs) && NoLostWakeup(t.recs, db)
    requires RemoveSuspends(t, db, x, k1, k2, result, us).Ok?
    ensures
      var recs' := RemoveSuspends(t, db, x, k1, k2, result, us).value.recs;
      AllSound(recs') && NoLostWakeup(recs', db)
  {
    RemoveSuspendsInv(t, db, x, k1, k2, result, us);
    var t' := RemoveSuspends(t, db, x, k1, k2, result, us).value;
    CoreSound(t', {});
    if x in t.recs {
      var r' := R.RemoveEntry(t.recs[x], k1, k2, result, us).value;
      RemovedNext(t.recs[x], k1, k2, result, us);
      RemoveSound(t.recs[x], k1, k2, result, us);
      forall u | u in t'.recs ensures HeldUp(t'.recs, db, u) {
        if u == x {
          RemovedHeldUp(t.recs, t'.recs, db, x, r');
        } else {
          RewriteHeldUp(t.recs, t'.recs, db, x, r', u);
        }
      }
    }
  }

  lemma RemoveSound(r: R.Rec, k1: JobKind, k2: Option<JobKind>, result: JobResult, us: ActiveState)
    requires V.Settled(r) && R.RemoveEntry(r, k1, k2, result, us).Ok?
    ensures R.QueueSound(R.RemoveEntry(r, k1, k2, result, us).value)
  {
    V.RemoveEntrySettles(r, k1, k2, result, us);
    V.SettledQueueSound(R.RemoveEntry(r, k1, k2, result, us).value);
  }

  /** Resuming a unit keeps every other paused unit blocked. */
  lemma ResumeKeepsWakeups(t: Tab, db: Db, x: UnitId)
    requires TabInv(t) && AllSound(t.recs) && NoLostWakeup(t.recs, db) && ResumeUnit(t, x).Ok?
    ensures AllSound(ResumeUnit(t, x).value.recs) && NoLostWakeup(ResumeUnit(t, x).value.recs, db)
  {
    ResumeUnitInv(t, x);
    var t' := ResumeUnit(t, x).value;
    CoreSound(t', {});
    forall u | u in t'.recs ensures HeldUp(t'.recs, db, u) {
      if Waiting(t'.recs[u]) {
        assert t'.recs[u] == t.recs[u];
        ResumedStillBlock(t.recs, t'.recs, db, u, t.recs[u].suspends[t.recs[u].sq[0]]);
      }
    }
  }

  lemma ResumedStillBlock(recs: Recs, recs': Recs, db: Db, u: UnitId, j: Job)
    requires AllResumed(recs, recs') && Blocked(recs, db, u, j)
    ensures Blocked(recs', db, u, j)
  {
    forall v | v in recs && Related(db, u, v)
      ensures R.Blocks(recs[v], j, After) ==> v in recs' && R.Blocks(recs'[v], j, After)
      ensures R.Blocks(recs[v], j, Before) ==> v in recs' && R.Blocks(recs'[v], j, Before)
    {
      BlocksSameJobs(recs[v], recs'[v], j, After);
      BlocksSameJobs(recs[v], recs'[v], j, Before);
    }
    BlockedStill(recs, recs', db, u, j);
  }

  // ----- over runs -----

  lemma OrderlyJob(t: Tab, db: Db, step: Step, t': Tab, u: UnitId, j: Job)
    requires TabInv(t) && Takes(t, db, step, t') && !step.DoCommit? && AllOrderly(t.recs)
    requires HasJob(t'.recs, u, j) && !j.kind.Nop?
    ensures !j.ignoreOrder
  {
    StepJobs(t, db, step, u, j);
    var r := t.recs[u];
    assert SuspendsLike(r, j) ==> r.suspends[j.kind].kind == j.kind;
  }

  lemma OrderlyKept(t: Tab, db: Db, step: Step, t': Tab)
    requires TabInv(t) && Takes(t, db, step, t') && !step.DoCommit? && AllOrderly(t.recs)
    requires forall u :: u in t'.recs ==> V.WaitingJobs(t'.recs[u].suspends)
    ensures AllOrderly(t'.recs)
  {
    forall u, j | HasJob(t'.recs, u, j) && !j.kind.Nop? ensures !j.ignoreOrder {
      OrderlyJob(t, db, step, t', u, j);
    }
    forall u | u in t'.recs ensures Orderly(t'.recs[u]) {
      OrderlyFromJobs(t'.recs, u);
    }
  }

  lemma OrderlyFromJobs(recs: Recs, u: UnitId)
    requires u in recs && V.WaitingJobs(recs[u].suspends)
    requires forall j :: HasJob(recs, u, j) && !j.kind.Nop? ==> !j.ignoreOrder
    ensures Orderly(recs[u])
  {
    var r := recs[u];
    forall k | k in r.suspends && !k.Nop? ensures !r.suspends[k].ignoreOrder {
      assert HasJob(recs, u, r.suspends[k]);
    }
    if r.trigger.Some? {
      assert HasJob(recs, u, r.trigger.value);
    }
  }

  /** Only nops ignore the ordering, and every paused unit is paused for a reason that still
      holds. */
  ghost predicate Wakeful(t: Tab, db: Db) {
    AllSound(t.recs) && AllOrderly(t.recs) && NoLostWakeup(t.recs, db)
  }

  /** Trying, removing and resuming, and finishing units that are not paused. */
  predicate WakefulStep(t: Tab, step: Step) {
    match step
    case DoTry(_, _, _) => true
    case DoRemove(_, _, _, _, _) => true
    case DoResume(_) => true
    case DoFinish(u, _) => u in t.recs && !t.recs[u].pause
    case _ => false
  }

  lemma StepKeepsWakeups(t: Tab, db: Db, step: Step, t': Tab)
    requires TabInv(t) && Takes(t, db, step, t') && WakefulStep(t, step) && WellOrdered(db)
    requires AllOrderly(t.recs) && NoLostWakeup(t.recs, db)
    ensures AllSound(t'.recs) && NoLostWakeup(t'.recs, db)
  {
    match step {
      case DoTry(order, act, us) => TryKeepsWakeups(t, db, order, act, us);
      case DoFinish(u, result) => FinishKeepsWakeups(t, db, u, result);
      case DoRemove(u, k1, k2, result, us) => RemoveKeepsWakeups(t, db, u, k1, k2, result, us);
      case DoResume(u) => ResumeKeepsWakeups(t, db, u);
    }
  }

  /** No wakeup is lost between commits: in every state, a paused unit whose first
      queued job is due and not a nop is blocked by a related unit's job, and that
      unit resumes it when the job leaves. */
  lemma {:induction false} RunLosesNoWakeup(db: Db, ts: seq<Tab>, steps: seq<Step>, i: nat)
    requires IsRun(db, ts, steps) && TabInv(ts[0]) && WellOrdered(db) && i < |ts|
    requires AllSound(ts[0].recs) && AllOrderly(ts[0].recs) && NoLostWakeup(ts[0].recs, db)
    requires forall n :: 0 <= n < |steps| ==> WakefulStep(ts[n], steps[n])
    ensures TabInv(ts[i]) && AllSound(ts[i].recs) && AllOrderly(ts[i].recs) && NoLostWakeup(ts[i].recs, db)
  {
    if i > 0 {
      RunLosesNoWakeup(db, ts, steps, i - 1);
      assert Takes(ts[i - 1], db, steps[i - 1], ts[i]);
      RunKeepsInvariant(db, ts, steps, i);
      StepKeepsWakeups(ts[i - 1], db, steps[i - 1], ts[i]);
      OrderlyKept(ts[i - 1], db, steps[i - 1], ts[i]);
    }
  }

  // ----- progress -----

  /** `u` comes before `v`, stored at either end. */
  predicate Precedes(db: Db, u: UnitId, v: UnitId) {
    v in Gets(db, u, AtomBefore) || u in Gets(db, v, AtomAfter)
  }

  /** A chain of ordering edges. */
  predicate IsChain(db: Db, p: seq<UnitId>) {
    forall i, k :: 0 <= i < |p| && k == i + 1 && k < |p| ==> Precedes(db, p[i], p[k])
  }

  ghost predicate Acyclic(db: Db) {
    forall p: seq<UnitId> :: |p| > 1 && IsChain(db, p) ==> p[0] != p[|p| - 1]
  }

  lemma {:induction false} DistinctBound(p: seq<UnitId>, s: set<UnitId>)
    requires Distinct(p) && forall i :: 0 <= i < |p| ==> p[i] in s
    ensures |p| <= |s|
    decreases |p|
  {
    if p != [] {
      var last := p[|p| - 1];
      DistinctBound(p[..|p| - 1], s - {last});
      assert s == (s - {last}) + {last};
    }
  }

  lemma ChainAppend(db: Db, q: seq<UnitId>, v: UnitId)
    requires q != [] && IsChain(db, q) && Precedes(db, q[|q| - 1], v)
    ensures IsChain(db, q + [v])
  {
    var p := q + [v];
    forall i, k | 0 <= i < |p| && k == i + 1 && k < |p| ensures Precedes(db, p[i], p[k]) {
      if k < |q| {
        assert Precedes(db, q[i], q[k]);
      }
    }
  }

  lemma ChainPrepend(db: Db, q: seq<UnitId>, v: UnitId)
    requires q != [] && IsChain(db, q) && Precedes(db, v, q[0])
    ensures IsChain(db, [v] + q)
  {
    var p := [v] + q;
    forall i, k | 0 <= i < |p| && k == i + 1 && k < |p| ensures Precedes(db, p[i], p[k]) {
      if i > 0 {
        assert Precedes(db, q[i - 1], q[k - 1]);
      }
    }
  }

  lemma ChainSlice(db: Db, p: seq<UnitId>, a: nat, b: nat)
    requires IsChain(db, p) && a <= b <= |p|
    ensures IsChain(db, p[a..b])
  {
    var c := p[a..b];
    forall i, k | 0 <= i < |c| && k == i + 1 && k < |c| ensures Precedes(db, c[i], c[k]) {
      assert Precedes(db, p[a + i], p[a + k]);
    }
  }

  /** `v` comes right after `u` (right before, if not `up`). */
  predicate Beside(db: Db, u: UnitId, v: UnitId, up: bool) {
    if up then Precedes(db, u, v) else Precedes(db, v, u)
  }

  predicate HasBeside(db: Db, s: set<UnitId>, u: UnitId, up: bool) {
    exists v :: v in s && Beside(db, u, v, up)
  }

  /** If every unit of `s` has another of `s` beside it, there are chains of any length. */
  lemma {:induction false} LongChain(db: Db, s: set<UnitId>, up: bool, n: nat) returns (p: seq<UnitId>)
    requires s != {} && n > 0 && forall u {:trigger HasBeside(db, s, u, up)} :: u in s ==> HasBeside(db, s, u, up)
    ensures |p| == n && IsChain(db, p) && forall i :: 0 <= i < n ==> p[i] in s
    decreases n
  {
    if n == 1 {
      var u :| u in s;
      p := [u];
    } else {
      var q := LongChain(db, s, up, n - 1);
      if up {
        assert HasBeside(db, s, q[n - 2], up);
        var v :| v in s && Beside(db, q[n - 2], v, up);
        ChainAppend(db, q, v);
        p := q + [v];
      } else {
        assert HasBeside(db, s, q[0], up);
        var v :| v in s && Beside(db, q[0], v, up);
        ChainPrepend(db, q, v);
        p := [v] + q;
      }
    }
  }

  lemma NoLongChain(db: Db, s: set<UnitId>, p: seq<UnitId>)
    requires Acyclic(db) && IsChain(db, p) && forall i :: 0 <= i < |p| ==> p[i] in s
    ensures |p| <= |s|
  {
    forall i, j | 0 <= i < j < |p| ensures p[i] != p[j] {
      ChainSlice(db, p, i, j + 1);
      var c := p[i..j + 1];
      assert c[0] == p[i] && c[|c| - 1] == p[j];
    }
    DistinctBound(p, s);
  }

  /** A finite, nonempty set of units has a first and a last one. */
  lemma Extreme(db: Db, s: set<UnitId>, up: bool) returns (m: UnitId)
    requires Acyclic(db) && s != {}
    ensures m in s && !HasBeside(db, s, m, up)
  {
    if forall u {:trigger HasBeside(db, s, u, up)} :: u in s ==> HasBeside(db, s, u, up) {
      var p := LongChain(db, s, up, |s| + 1);
      NoLongChain(db, s, p);
      assert false;
    } else {
      m :| m in s && !HasBeside(db, s, m, up);
    }
  }

  /** Suspended jobs other than nops. */
  predicate Busy(r: R.Rec) {
    exists k :: k in r.suspends && !k.Nop?
  }

  predicate HasStopping(r: R.Rec) {
    exists k :: k in r.suspends && IsStopping(k)
  }

  /** The first queued job of a busy unit is not a nop, and it stops the unit if any does. */
  lemma BusyFront(r: R.Rec)
    requires V.Settled(r) && Busy(r)
    ensures r.sq != [] && r.sq[0] in r.suspends && r.suspends[r.sq[0]].kind == r.sq[0] && !r.sq[0].Nop?
    ensures HasStopping(r) ==> IsStopping(r.sq[0])
  {
    R.QueueOfMeaning(r.suspends);
    BusyQueueFront(r.suspends);
  }

  lemma BusyQueueFront(s: R.Suspends)
    requires exists k :: k in s && IsBasic(k) && !k.Nop?
    ensures R.QueueOf(s) != [] && !R.QueueOf(s)[0].Nop?
  {
  }

  predicate NothingRuns(recs: Recs) {
    forall u :: u in recs ==> recs[u].trigger.None?
  }

  lemma BlockerIs(r: R.Rec, j: Job, atom: OrderAtom)
    requires V.Settled(r) && r.trigger.None? && !Exempt(j) && R.Blocks(r, j, atom)
    ensures Busy(r)
    ensures if atom.After? then !IsStopping(j.kind) else HasStopping(r)
  {
    var k :| k in r.suspends && IsOrderWith(j, r.suspends[k], atom) > 0;
    OrderWithMeans(j, r.suspends[k], atom);
  }

  /** The last of the units to be stopped may go ahead. */
  lemma LastStoppingMayGo(recs: Recs, db: Db, m: UnitId)
    requires NothingRuns(recs) && AllSettled(recs)
    requires m in StoppingUnits(recs) && !HasBeside(db, StoppingUnits(recs), m, true)
    ensures m in BusyUnits(recs) && recs[m].sq != [] && recs[m].sq[0] in recs[m].suspends
    ensures MayGo(recs, db, m, recs[m].suspends[recs[m].sq[0]])
  {
    BusyFront(recs[m]);
    var j := recs[m].suspends[recs[m].sq[0]];
    if !Exempt(j) {
      MayGoOrBlocked(recs, db, m, j);
      forall v | v in recs ensures !BlockedBy(recs, db, m, j, v) {
        if R.Blocks(recs[v], j, After) {
          BlockerIs(recs[v], j, After);
        }
        if v in Gets(db, m, AtomBefore) && R.Blocks(recs[v], j, Before) {
          BlockerIs(recs[v], j, Before);
          assert Beside(db, m, v, true);
        }
      }
    }
  }

  /** If nothing is to be stopped, the first of the units to be worked on may go ahead. */
  lemma FirstBusyMayGo(recs: Recs, db: Db, m: UnitId)
    requires NothingRuns(recs) && AllSettled(recs) && StoppingUnits(recs) == {}
    requires m in BusyUnits(recs) && !HasBeside(db, BusyUnits(recs), m, false)
    ensures recs[m].sq != [] && recs[m].sq[0] in recs[m].suspends
    ensures MayGo(recs, db, m, recs[m].suspends[recs[m].sq[0]])
  {
    BusyFront(recs[m]);
    var j := recs[m].suspends[recs[m].sq[0]];
    if !Exempt(j) {
      MayGoOrBlocked(recs, db, m, j);
      forall v | v in recs ensures !BlockedBy(recs, db, m, j, v) {
        assert v !in StoppingUnits(recs);
        if v in Gets(db, m, AtomAfter) && R.Blocks(recs[v], j, After) {
          BlockerIs(recs[v], j, After);
          assert Beside(db, m, v, false);
        }
        if R.Blocks(recs[v], j, Before) {
          BlockerIs(recs[v], j, Before);
        }
      }
    }
  }

  predicate AllSettled(recs: Recs) {
    forall u :: u in recs ==> V.Settled(recs[u])
  }

  function StoppingUnits(recs: Recs): set<UnitId> {
    set u | u in recs && HasStopping(recs[u])
  }

  function BusyUnits(recs: Recs): set<UnitId> {
    set u | u in recs && Busy(recs[u])
  }

  lemma BusyProgress(recs: Recs, db: Db) returns (m: UnitId)
    requires AllSettled(recs) && Acyclic(db) && NothingRuns(recs) && BusyUnits(recs) != {}
    ensures m in BusyUnits(recs) && recs[m].sq != [] && recs[m].sq[0] in recs[m].suspends
    ensures MayGo(recs, db, m, recs[m].suspends[recs[m].sq[0]])
  {
    if StoppingUnits(recs) != {} {
      m := Extreme(db, StoppingUnits(recs), true);
      LastStoppingMayGo(recs, db, m);
    } else {
      m := Extreme(db, BusyUnits(recs), false);
      FirstBusyMayGo(recs, db, m);
    }
  }

  function QueuedUnits(recs: Recs): set<UnitId> {
    set u | u in recs && recs[u].sq != []
  }

  /** A queue of a unit that holds nothing but a nop. */
  lemma NopMayGo(recs: Recs, db: Db, m: UnitId)
    requires m in QueuedUnits(recs) && V.Settled(recs[m]) && !Busy(recs[m])
    ensures recs[m].sq[0] in recs[m].suspends && MayGo(recs, db, m, recs[m].suspends[recs[m].sq[0]])
  {
    R.QueueOfMeaning(recs[m].suspends);
    assert recs[m].sq[0] in recs[m].suspends;
  }

  /** The scheduler makes progress: if the ordering has no cycle, nothing runs and some unit
      has something queued, then the first queued job of some unit is blocked by nobody; and
      it is one other than a nop, if there is any. */
  lemma Progress(recs: Recs, db: Db) returns (m: UnitId)
    requires AllSettled(recs) && Acyclic(db) && NothingRuns(recs) && QueuedUnits(recs) != {}
    ensures m in QueuedUnits(recs) && recs[m].sq[0] in recs[m].suspends
    ensures MayGo(recs, db, m, recs[m].suspends[recs[m].sq[0]])
    ensures BusyUnits(recs) != {} ==> m in BusyUnits(recs) && !recs[m].sq[0].Nop?
  {
    if BusyUnits(recs) != {} {
      m := BusyProgress(recs, db);
      BusyFront(recs[m]);
    } else {
      m :| m in QueuedUnits(recs);
      assert m !in BusyUnits(recs);
      NopMayGo(recs, db, m);
    }
  }

  /** Progress is not lost to a forgotten pause either: where every wakeup is kept, the
      unit that may go ahead is ready, and the scheduler's own test lets it pass. */
  lemma NeverStuck(t: Tab, db: Db) returns (m: UnitId)
    requires TabInv(t) && AllSound(t.recs) && AllOrderly(t.recs) && NoLostWakeup(t.recs, db)
    requires Acyclic(db) && NothingRuns(t.recs) && BusyUnits(t.recs) != {}
    ensures m in t.recs && t.recs[m].ready && IsRunnable(t.recs, db, m, t.recs[m]) == Ok(true)
  {
    m := BusyProgress(t.recs, db);
    var r := t.recs[m];
    BusyFront(r);
    MayGoOrBlocked(t.recs, db, m, r.suspends[r.sq[0]]);
    assert HeldUp(t.recs, db, m);
    ReadyWhenDue(r);
    ReadyHasNext(r);
    IsRunnableMeaning(t.recs, db, m, r);
  }

  /** So when the scheduler has come to rest, with nothing ready and nothing running, no job
      is left undone but nops. */
  lemma NothingLeftUndone(t: Tab, db: Db)
    requires TabInv(t) && AllSound(t.recs) && AllOrderly(t.recs) && NoLostWakeup(t.recs, db)
    requires Acyclic(db) && NothingRuns(t.recs)
    ensures ReadyUnits(t.recs) == {} ==> BusyUnits(t.recs) == {}
  {
    if BusyUnits(t.recs) != {} {
      var m := NeverStuck(t, db);
      assert m in ReadyUnits(t.recs);
    }
  }

  predicate NobodyPaused(recs: Recs) {
    forall u :: u in recs ==> !recs[u].pause
  }

  /** Where the runs above may begin: a commit into a table without paused units leaves none,
      so no wakeup is missing. */
  lemma CommitUnpaused(t: Tab, db: Db, s: Stage, env: CommitEnv, order: seq<UnitId>)
    requires TabInv(t) && StageOk(s) && Enumerates(order, AllUnits(t.recs, s)) && NobodyPaused(t.recs)
    requires Commit(t, s, env, order).Ok? && Commit(t, s, env, order).value.Committed?
    ensures
      var recs' := Commit(t, s, env, order).value.tab.recs;
      NobodyPaused(recs') && AllSound(recs') && NoLostWakeup(recs', db)
  {
    C.CommitInv(t, s, env, order);
    C.AllReady(t, s, env);
    var t' := Commit(t, s, env, order).value.tab;
    CoreSound(t', {});
    forall u | u in t'.recs ensures !t'.recs[u].pause {
      CommittedRecMeaning(t.recs, s, env, u);
    }
  }

  lemma ReadyWhenDue(r: R.Rec)
    requires V.Settled(r) && R.QueueSound(r) && r.trigger.None? && r.sq != [] && !r.sq[0].Nop? && !Waiting(r)
    ensures r.ready
  {
  }
}
