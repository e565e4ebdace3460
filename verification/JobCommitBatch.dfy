/** A commit that comes while a batch is being worked off: exactly when it leaves a unit in
    the batch that is no longer ready (process1/src/manager/unit/job/job_table.rs:491-568,
    870-915). A request raised while the manager runs its jobs is committed like that. */
module JobCommitBatch {
  import opened Outcomes
  import opened UnitBase
  import opened JobEntry
  import opened JobTableState
  import opened JobTableIndex
  import opened JobTableInvariant
  import opened JobTableCommit
  import C = JobTableCommitIds
  import R = JobUnitRecord
  import V = JobUnitInvariant

  predicate BatchOk(t: Tab) {
    BatchReady(t.ix, ReadyUnits(t.recs))
  }

  // ----- which units are reshuffled, and which end up ready -----

  /** Does the commit disturb the unit: by a kind of job it does not hold suspended, or no
      longer does after a conflict, or by isolation? */
  predicate Disturbs(recs: Recs, s: Stage, env: CommitEnv, u: UnitId) {
    if u in s.units then !(s.units[u].Keys <= V.MergeBase(OldRec(recs, u).suspends, s.units[u]).Keys)
    else Isolated(s, env, u)
  }

  /** Does a record with these jobs have a next one, pauses aside? */
  predicate HasNext(suspends: R.Suspends, trigger: Option<Job>, retrigger: bool) {
    if trigger.None? then suspends != map[]
    else retrigger || Stop in suspends || Restart in suspends
  }

  /** Is the unit ready after the commit? A disturbed one is if it has a next job and is not
      paused; any other is if it was. */
  predicate EndsReady(recs: Recs, s: Stage, env: CommitEnv, u: UnitId) {
    var was := OldRec(recs, u);
    if Disturbs(recs, s, env, u) then !was.pause && HasNext(CommittedSuspends(recs, s, env, u), was.trigger, was.retrigger)
    else was.ready
  }

  lemma DisturbedDirty(recs: Recs, s: Stage, env: CommitEnv, u: UnitId)
    requires CanCommit(recs, s, env, u)
    ensures Staged(recs, s, env, u).Ok?
    ensures Staged(recs, s, env, u).value.dirty <==> Disturbs(recs, s, env, u)
  {
    StagedShape(recs, s, env, u);
    var was := OldRec(recs, u);
    BlankSettled();
    if u in s.units {
      var o := s.units[u];
      if u !in recs {
        BlankMerges(o);
      }
      V.MergeSuspendsShape(was, o);
      V.MergeBaseKeeps(was, o);
    }
  }

  lemma ReshuffledNext(r: R.Rec)
    requires V.Settled(r) && r.sq == R.QueueOf(r.suspends)
    ensures r.ready <==> !r.pause && HasNext(r.suspends, r.trigger, r.retrigger)
  {
    R.QueueOfMeaning(r.suspends);
    if r.sq != [] && IsStopping(r.sq[0]) {
      assert r.sq[0] in r.suspends;
    }
  }

  lemma ReshuffledQueue(recs: Recs, s: Stage, env: CommitEnv, u: UnitId)
    requires CanCommit(recs, s, env, u) && Disturbs(recs, s, env, u) && CommittedRec(recs, s, env, u).Ok?
    ensures var r := CommittedRec(recs, s, env, u).value; r.sq == R.QueueOf(r.suspends)
  {
    DisturbedDirty(recs, s, env, u);
    StagedShape(recs, s, env, u);
  }

  lemma EndsReadyMeaning(recs: Recs, s: Stage, env: CommitEnv, u: UnitId)
    requires CanCommit(recs, s, env, u) && CommittedRec(recs, s, env, u).Ok?
    ensures CommittedRec(recs, s, env, u).value.ready <==> EndsReady(recs, s, env, u)
  {
    CommittedRecMeaning(recs, s, env, u);
    DisturbedDirty(recs, s, env, u);
    if Disturbs(recs, s, env, u) {
      ReshuffledQueue(recs, s, env, u);
      ReshuffledNext(CommittedRec(recs, s, env, u).value);
    } else {
      StagedShape(recs, s, env, u);
    }
  }

  // ----- the reshuffle and the batch -----

  /** Some unit that is still to be reshuffled ends up ready. */
  predicate Revives(recs: Recs, c: Recs, us: seq<UnitId>)
    requires recs.Keys <= c.Keys
  {
    exists u :: u in us && u in recs && recs[u].dirty && c[u].ready
  }

  /** Putting a reshuffled record puts the batch back if the unit is ready, and leaves it
      alone if not. */
  lemma PutReadys(t: Tab, env: CommitEnv, us: seq<UnitId>, r: R.Rec)
    requires Mid(t, env, us) && us != [] && us[0] in t.recs && t.recs[us[0]].dirty
    ensures Collect(PutRec(t, us[0], r), us[0]).ix.readys == if r.ready then [] else t.ix.readys
  {
    BackfillMeaning(t.ix, ReadyUnits(t.recs[us[0] := r]));
  }

  lemma {:induction false} ReshuffleReadys(t: Tab, env: CommitEnv, us: seq<UnitId>, c: Recs)
    requires Mid(t, env, us) && Distinct(us) && Targets(t.recs, c, env, us) && ReshuffleUnits(t, env, us).Ok?
    ensures ReshuffleUnits(t, env, us).value.ix.readys == if Revives(t.recs, c, us) then [] else t.ix.readys
    decreases |us|
  {
    if us != [] {
      ReshuffleUnitMid(t, env, us);
      var t1 := ReshuffleUnit(t, env, us[0]).value;
      TargetsStep(t.recs, t1.recs, c, env, us);
      ReshuffleReadys(t1, env, us[1..], c);
      FirstReadys(t, env, us, c);
      RevivesStep(t.recs, t1.recs, c, us);
    }
  }

  lemma FirstReadys(t: Tab, env: CommitEnv, us: seq<UnitId>, c: Recs)
    requires Mid(t, env, us) && us != [] && Targets(t.recs, c, env, us) && ReshuffleUnit(t, env, us[0]).Ok?
    ensures ReshuffleUnit(t, env, us[0]).value.ix.readys ==
      if us[0] in t.recs && t.recs[us[0]].dirty && c[us[0]].ready then [] else t.ix.readys
  {
    if us[0] in t.recs && t.recs[us[0]].dirty {
      PutReadys(t, env, us, c[us[0]]);
    }
  }

  lemma RevivesStep(recs: Recs, recs1: Recs, c: Recs, us: seq<UnitId>)
    requires recs.Keys <= c.Keys && recs1.Keys <= recs.Keys && us != [] && us[0] !in us[1..]
    requires forall u :: u in recs && u != us[0] ==> u in recs1 && recs1[u] == recs[u]
    ensures Revives(recs, c, us) <==> (us[0] in recs && recs[us[0]].dirty && c[us[0]].ready) || Revives(recs1, c, us[1..])
  {
    assert forall u :: u in us <==> u == us[0] || u in us[1..];
  }

  /** A disturbed unit that ends up ready. */
  predicate Back(recs: Recs, s: Stage, env: CommitEnv, u: UnitId) {
    Disturbs(recs, s, env, u) && EndsReady(recs, s, env, u)
  }

  /** The batch after the whole commit: put back if a disturbed unit ends up ready, and
      otherwise what it was. */
  predicate PutsBack(recs: Recs, s: Stage, env: CommitEnv) {
    exists u :: u in AllUnits(recs, s) && Back(recs, s, env, u)
  }

  lemma CommitReadys(t: Tab, s: Stage, env: CommitEnv, order: seq<UnitId>)
    requires TabInv(t) && StageOk(s) && Enumerates(order, AllUnits(t.recs, s))
    requires Commit(t, s, env, order).Ok? && Commit(t, s, env, order).value.Committed?
    ensures Commit(t, s, env, order).value.tab.ix.readys == if PutsBack(t.recs, s, env) then [] else t.ix.readys
  {
    C.CommitInv(t, s, env, order);
    C.AllReady(t, s, env);
    StageAllMid(t, s, env, order);
    var c := CommitTargets(t.recs, s, env, order);
    var recs1 := StageAll(t.recs, s, env).value;
    ReshuffleReadys(t.(recs := recs1, sync := false), env, order, c);
    RevivesMeans(t.recs, recs1, c, s, env, order);
  }

  lemma BackMeans(recs: Recs, recs1: Recs, c: Recs, s: Stage, env: CommitEnv, u: UnitId)
    requires AllCanCommit(recs, s, env) && C.Computed(recs, recs1, c, s, env) && u in AllUnits(recs, s)
    ensures recs1[u].dirty && c[u].ready <==> Back(recs, s, env, u)
  {
    assert CanCommit(recs, s, env, u);
    DisturbedDirty(recs, s, env, u);
    EndsReadyMeaning(recs, s, env, u);
  }

  lemma RevivesMeans(recs: Recs, recs1: Recs, c: Recs, s: Stage, env: CommitEnv, order: seq<UnitId>)
    requires AllCanCommit(recs, s, env) && C.Computed(recs, recs1, c, s, env) && Enumerates(order, AllUnits(recs, s))
    ensures Revives(recs1, c, order) <==> PutsBack(recs, s, env)
  {
    if Revives(recs1, c, order) {
      var u :| u in order && u in recs1 && recs1[u].dirty && c[u].ready;
      BackMeans(recs, recs1, c, s, env, u);
    }
    if PutsBack(recs, s, env) {
      var u :| u in AllUnits(recs, s) && Back(recs, s, env, u);
      BackMeans(recs, recs1, c, s, env, u);
      assert u in Members(order);
    }
  }

  /** A unit is ready after the commit exactly when that is what becomes of it. */
  lemma CommittedReady(recs: Recs, recs': Recs, s: Stage, env: CommitEnv, u: UnitId)
    requires AllCanCommit(recs, s, env) && CommittedTo(recs, recs', s, env) && u in recs
    ensures u in ReadyUnits(recs') <==> EndsReady(recs, s, env, u)
  {
    assert CanCommit(recs, s, env, u);
    PlaceOf(recs, recs', s, env, u);
    CommittedRecMeaning(recs, s, env, u);
    EndsReadyMeaning(recs, s, env, u);
  }

  /** Does the commit leave everything in the batch ready, or put the batch back? */
  predicate CommitKeeps(t: Tab, s: Stage, env: CommitEnv) {
    (forall u :: u in t.ix.readys ==> EndsReady(t.recs, s, env, u)) || PutsBack(t.recs, s, env)
  }

  /** The exact condition for a commit to keep the batch in order: every unit of the batch
      stays ready, or some disturbed unit ends up ready and the batch is put back. */
  lemma CommitBatchIff(t: Tab, s: Stage, env: CommitEnv, order: seq<UnitId>)
    requires TabInv(t) && BatchOk(t) && StageOk(s) && Enumerates(order, AllUnits(t.recs, s))
    requires Commit(t, s, env, order).Ok? && Commit(t, s, env, order).value.Committed?
    ensures BatchOk(Commit(t, s, env, order).value.tab) <==> CommitKeeps(t, s, env)
  {
    C.CommitInv(t, s, env, order);
    C.AllReady(t, s, env);
    CommitReadys(t, s, env, order);
    var t' := Commit(t, s, env, order).value.tab;
    forall u | u in t.ix.readys ensures u in ReadyUnits(t'.recs) <==> EndsReady(t.recs, s, env, u) {
      CommittedReady(t.recs, t'.recs, s, env, u);
    }
  }
}
