/** The job table as it is changed in place, method by method and loop by loop, proved
    against the functions of `JobTableState`
    (process1/src/manager/unit/job/job_table.rs). */
module JobTableObject {
  import opened Outcomes
  import opened UnitBase
  import opened JobEntry
  import S = JobTableState
  import R = JobUnitRecord
  import Steps = JobTableSteps

  lemma {:induction false} SyncEachSnoc(ix: S.Index, us: seq<UnitId>, u: UnitId, ready: set<UnitId>)
    ensures S.SyncEach(ix, us + [u], ready) == S.SyncPlain(S.SyncEach(ix, us, ready), u, ready)
    decreases |us|
  {
    if us == [] {
      assert us + [u] == [u];
      assert S.SyncEach(S.SyncPlain(ix, u, ready), [u][1..], ready) == S.SyncPlain(ix, u, ready);
    } else {
      assert (us + [u])[0] == us[0] && (us + [u])[1..] == us[1..] + [u];
      SyncEachSnoc(S.SyncPlain(ix, us[0], ready), us[1..], u, ready);
    }
  }

  lemma ResumeAllSnoc(t: S.Tab, us: seq<UnitId>, u: UnitId)
    ensures S.ResumeAll(t, us + [u]) == (if S.ResumeAll(t, us).Panic? then Panic else S.ResumeUnit(S.ResumeAll(t, us).value, u))
  {
    Steps.ResumeAllConcat(t, us, [u]);
    if S.ResumeAll(t, us).Ok? {
      var e := S.ResumeUnit(S.ResumeAll(t, us).value, u);
      assert [u][0] == u && [u][1..] == [];
      assert e.Ok? ==> S.ResumeAll(e.value, []) == e;
    }
  }

  class JobTable {
    var tId: map<nat, S.JobRef>
    var tData: S.Recs
    var tReady: set<UnitId>
    var readys: seq<UnitId>
    var up: set<UnitId>
    var sync: bool

    function Ix(): S.Index
      reads this
    {
      S.Index(tReady, readys, up)
    }

    function Value(): S.Tab
      reads this
    {
      S.Tab(tData, Ix(), sync, tId)
    }

    constructor ()
      ensures Value() == S.NEW_TAB
    {
      tId, tData, tReady, readys, up, sync := map[], map[], {}, [], {}, true;
    }

    // ----- the readiness index -----

    method ReadySync(u: UnitId)
      modifies this`tReady, this`readys, this`up
      ensures Ix() == S.ReadySync(old(Ix()), u, S.ReadyUnits(tData))
      decreases readys != [], 2
    {
      if u in tData && tData[u].ready {
        ReadyInsert(u);
      } else {
        ReadyRemove(u);
      }
    }

    method ReadyInsert(u: UnitId)
      requires u in S.ReadyUnits(tData)
      modifies this`tReady, this`readys, this`up
      ensures Ix() == S.ReadySync(old(Ix()), u, S.ReadyUnits(tData))
      decreases readys != [], 1
    {
      if u !in up {
        ReadysBackfill();
        tReady := tReady + {u};
        up := up + {u};
      }
    }

    method ReadyRemove(u: UnitId)
      requires u !in S.ReadyUnits(tData)
      modifies this`tReady, this`readys, this`up
      ensures Ix() == S.ReadySync(old(Ix()), u, S.ReadyUnits(tData))
      decreases readys != [], 1
    {
      if u in up {
        ReadysBackfill();
        tReady := tReady - {u};
        up := up - {u};
      }
    }

    method ReadysBackfill()
      modifies this`tReady, this`readys, this`up
      ensures Ix() == S.Backfill(old(Ix()), S.ReadyUnits(tData))
      decreases readys != [], 0
    {
      if readys != [] {
        var us := readys;
        readys := [];
        ghost var ix0 := Ix();
        ghost var ready := S.ReadyUnits(tData);
        var i := 0;
        while i < |us|
          invariant i <= |us| && readys == [] && Ix() == S.SyncEach(ix0, us[..i], ready)
        {
          assert us[..i + 1] == us[..i] + [us[i]];
          SyncEachSnoc(ix0, us[..i], us[i], ready);
          ReadySync(us[i]);
          i := i + 1;
        }
        assert us[..i] == us;
      }
    }

    method ReadysFill() returns (ghost order: seq<UnitId>)
      modifies this`tReady, this`readys, this`up
      ensures S.Enumerates(order, old(tReady)) && Ix() == S.Fill(old(Ix()), order)
    {
      var us := AnyOrder(tReady);
      order := us;
      if readys == [] {
        readys := us;
        tReady := {};
        up := up - S.Members(us);
      }
    }

    // ----- trying -----

    method FreeAmong(r: R.Rec, others: seq<UnitId>, atom: OrderAtom) returns (panicked: bool, free: bool)
      requires R.QueueSound(r)
      ensures panicked <==> S.FreeOf(tData, r, others, atom).Panic?
      ensures !panicked ==> S.FreeOf(tData, r, others, atom) == Ok(free)
    {
      var i := 0;
      while i < |others|
        invariant i <= |others| && S.FreeOf(tData, r, others, atom) == S.FreeOf(tData, r, others[i..], atom)
      {
        assert others[i..][0] == others[i] && others[i..][1..] == others[i + 1..];
        if others[i] in tData {
          var f := R.NextTriggerOrderWith(r, tData[others[i]], atom);
          if f.Panic? {
            return true, false;
          }
          if !f.value {
            return false, false;
          }
        }
        i := i + 1;
      }
      return false, true;
    }

    method IsUvRunnable(db: Db, u: UnitId, r: R.Rec) returns (panicked: bool, go: bool)
      requires R.QueueSound(r)
      ensures panicked <==> S.IsRunnable(tData, db, u, r).Panic?
      ensures !panicked ==> S.IsRunnable(tData, db, u, r) == Ok(go)
    {
      panicked, go := FreeAmong(r, Gets(db, u, AtomAfter), After);
      if !panicked && go {
        panicked, go := FreeAmong(r, Gets(db, u, AtomBefore), Before);
      }
    }

    method TryTrigger(db: Db, act: Option<ActionError>, us: ActiveState)
      returns (panicked: bool, tried: S.Tried, ghost order: seq<UnitId>)
      requires S.AllSound(tData)
      modifies this
      ensures S.Enumerates(order, old(tReady))
      ensures panicked <==> S.TryTrigger(old(Value()), db, order, act, us).Panic?
      ensures !panicked ==> S.TryTrigger(old(Value()), db, order, act, us) == Ok((Value(), tried))
    {
      panicked, tried := false, S.Nothing;
      if !sync {
        panicked := true;
        order := AnyOrder(tReady);
        return;
      }
      order := ReadysFill();
      if readys != [] {
        var u := readys[|readys| - 1];
        readys := readys[..|readys| - 1];
        panicked, tried := TryTriggerEntry(db, u, act, us);
      }
    }

    method TryTriggerEntry(db: Db, u: UnitId, act: Option<ActionError>, us: ActiveState) returns (panicked: bool, tried: S.Tried)
      requires S.AllSound(tData)
      modifies this`tData, this`tId
      ensures panicked <==> S.TryEntry(old(Value()), db, u, act, us).Panic?
      ensures !panicked ==> S.TryEntry(old(Value()), db, u, act, us) == Ok((Value(), tried))
    {
      panicked, tried := true, S.Nothing;
      if u in tData && !tData[u].dirty {
        var r := tData[u];
        var p, go := IsUvRunnable(db, u, r);
        if !p && go {
          var e := R.TriggerEntry(r, act, us);
          if e.Ok? {
            tData := tData[u := e.value.0];
            tId := S.Without(tId, e.value.2);
            panicked, tried := false, S.Triggered(u, e.value.1, e.value.2);
          }
        } else if !p {
          var e := R.PauseEntry(r);
          if e.Ok? {
            tData := tData[u := e.value];
            panicked, tried := false, S.Paused(u);
          }
        }
      }
    }

    // ----- finishing, removing, resuming -----

    method StoreRec(u: UnitId, r: R.Rec)
      modifies this`tData, this`tReady, this`readys, this`up
      ensures Value() == S.PutRec(old(Value()), u, r)
    {
      tData := tData[u := r];
      ReadySync(u);
    }

    method TryGcEmptyUnit(u: UnitId)
      modifies this`tData, this`tReady, this`up
      ensures Value() == S.Collect(old(Value()), u)
    {
      if u in tData && S.IsEmptyRec(tData[u]) {
        tData := tData - {u};
        tReady := tReady - {u};
        up := up - {u};
      }
    }

    method ResumeUnit(u: UnitId) returns (panicked: bool)
      modifies this`tData, this`tReady, this`readys, this`up
      ensures panicked <==> S.ResumeUnit(old(Value()), u).Panic?
      ensures !panicked ==> S.ResumeUnit(old(Value()), u) == Ok(Value())
    {
      panicked := false;
      if u in tData {
        if tData[u].dirty {
          panicked := true;
        } else if tData[u].pause {
          var e := R.ResumeEntry(tData[u]);
          if e.Panic? {
            panicked := true;
          } else {
            StoreRec(u, e.value);
          }
        }
      }
    }

    method ResumeAll(us: seq<UnitId>) returns (panicked: bool)
      modifies this`tData, this`tReady, this`readys, this`up
      ensures panicked <==> S.ResumeAll(old(Value()), us).Panic?
      ensures !panicked ==> S.ResumeAll(old(Value()), us) == Ok(Value())
    {
      ghost var t0 := Value();
      panicked := false;
      var i := 0;
      while i < |us|
        invariant i <= |us| && S.ResumeAll(t0, us[..i]) == Ok(Value())
      {
        assert us[..i + 1] == us[..i] + [us[i]];
        ResumeAllSnoc(t0, us[..i], us[i]);
        panicked := ResumeUnit(us[i]);
        if panicked {
          assert us == us[..i + 1] + us[i + 1..];
          Steps.ResumeAllConcat(t0, us[..i + 1], us[i + 1..]);
          return;
        }
        i := i + 1;
      }
      assert us[..i] == us;
    }

    method ResumeRelated(db: Db, u: UnitId) returns (panicked: bool)
      modifies this`tData, this`tReady, this`readys, this`up
      ensures panicked <==> S.ResumeRelated(old(Value()), db, u).Panic?
      ensures !panicked ==> S.ResumeRelated(old(Value()), db, u) == Ok(Value())
    {
      panicked := ResumeAll(Gets(db, u, AtomAfter));
      if !panicked {
        panicked := ResumeAll(Gets(db, u, AtomBefore));
      }
    }

    method FinishTrigger(db: Db, u: UnitId, result: JobResult) returns (panicked: bool, del: Option<Job>)
      modifies this
      ensures panicked <==> S.FinishTrigger(old(Value()), db, u, result).Panic?
      ensures !panicked ==> S.FinishTrigger(old(Value()), db, u, result) == Ok((Value(), del))
    {
      panicked, del := true, None;
      if sync && u in tData && tData[u].trigger.Some? && !tData[u].dirty {
        var e := R.FinishEntry(tData[u], result);
        if e.Ok? {
          del := e.value.1;
          StoreRec(u, e.value.0);
          panicked := ResumeRelated(db, u);
          if !panicked {
            TryGcEmptyUnit(u);
            tId := S.Without(tId, del);
          }
        }
      }
    }

    method RemoveSuspends(db: Db, u: UnitId, k1: JobKind, k2: Option<JobKind>, result: JobResult, us: ActiveState) returns (panicked: bool)
      modifies this
      ensures panicked <==> S.RemoveSuspends(old(Value()), db, u, k1, k2, result, us).Panic?
      ensures !panicked ==> S.RemoveSuspends(old(Value()), db, u, k1, k2, result, us) == Ok(Value())
    {
      panicked := !sync;
      if sync && u in tData {
        if tData[u].dirty {
          return true;
        }
        var gone := S.IdsOf(tData[u].suspends, S.Named(k1, k2));
        var e := R.RemoveEntry(tData[u], k1, k2, result, us);
        if e.Panic? {
          return true;
        }
        StoreRec(u, e.value);
        panicked := ResumeRelated(db, u);
        if !panicked {
          TryGcEmptyUnit(u);
          tId := tId - gone;
        }
      }
    }

    method RemoveUnit(u: UnitId)
      modifies this
      ensures Value() == S.RemoveUnit(old(Value()), u)
    {
      if u in tData {
        var r := tData[u];
        tId := S.Without(tId - S.IdsOf(r.suspends, r.suspends.Keys), r.trigger);
        tData := tData - {u};
        tReady := tReady - {u};
        up := up - {u};
      }
    }

    // ----- committing a stage -----

    method IsolateSuspends(s: S.Stage, env: S.CommitEnv) returns (panicked: bool)
      modifies this`tData, this`sync
      ensures panicked ==> exists u :: u in old(tData) && S.Isolated(s, env, u) && S.Staged(old(tData), s, env, u).Panic?
      ensures !panicked ==> IsolatedTo(old(tData), tData, s, env, old(tData).Keys)
    {
      ghost var recs := tData;
      var us := AnyOrder(tData.Keys);
      var i := 0;
      while i < |us|
        invariant i <= |us| && IsolatedTo(recs, tData, s, env, S.Members(us[..i]))
      {
        MembersNext(us, i);
        IsolateNext(recs, tData, s, env, S.Members(us[..i]), us[i]);
        if S.Isolated(s, env, us[i]) {
          var e := R.FlushSuspends(tData[us[i]]);
          if e.Panic? {
            return true;
          }
          tData := tData[us[i] := e.value];
        }
        i := i + 1;
      }
      assert us[..i] == us;
      sync := false;
      panicked := false;
    }

    method MergeSuspends(s: S.Stage, env: S.CommitEnv, ghost recs: S.Recs) returns (panicked: bool)
      requires IsolatedTo(recs, tData, s, env, recs.Keys)
      modifies this`tData, this`sync
      ensures panicked <==> S.StageAll(recs, s, env).Panic?
      ensures !panicked ==> S.StageAll(recs, s, env) == Ok(tData) && !sync
    {
      NothingMerged(recs, tData, s, env);
      panicked := MergeUnits(s, env, recs);
      if !panicked {
        AllMerged(recs, tData, s, env);
        sync := false;
      }
    }

    method MergeUnits(s: S.Stage, env: S.CommitEnv, ghost recs: S.Recs) returns (panicked: bool)
      requires MergedTo(recs, tData, s.units.Keys, Targets(recs, s, env), {})
      modifies this`tData
      ensures panicked ==> S.StageAll(recs, s, env).Panic?
      ensures !panicked ==> MergedTo(recs, tData, s.units.Keys, Targets(recs, s, env), s.units.Keys)
    {
      var us := AnyOrder(s.units.Keys);
      var i := 0;
      while i < |us|
        invariant i <= |us| && MergedTo(recs, tData, s.units.Keys, Targets(recs, s, env), S.Members(us[..i]))
      {
        MembersNext(us, i);
        panicked := MergeUnit(s, env, us[i], recs, S.Members(us[..i]));
        if panicked {
          return;
        }
        i := i + 1;
      }
      assert us[..i] == us;
      panicked := false;
    }

    method MergeUnit(s: S.Stage, env: S.CommitEnv, u: UnitId, ghost recs: S.Recs, ghost done: set<UnitId>) returns (panicked: bool)
      requires MergedTo(recs, tData, s.units.Keys, Targets(recs, s, env), done) && u in s.units && u !in done
      modifies this`tData
      ensures panicked ==> S.StageAll(recs, s, env).Panic?
      ensures !panicked ==> MergedTo(recs, tData, s.units.Keys, Targets(recs, s, env), done + {u})
    {
      var e := R.MergeSuspends(S.RecOrNew(tData, u), s.units[u]);
      MergesAsStaged(recs, tData, s, env, done, u);
      panicked := e.Panic?;
      if e.Ok? {
        MergeNext(recs, tData, s.units.Keys, Targets(recs, s, env), done, u, e.value);
        tData := tData[u := e.value];
      }
    }

    method ReshuffleEntry(env: S.CommitEnv, u: UnitId) returns (panicked: bool)
      modifies this`tData, this`tReady, this`readys, this`up
      ensures panicked <==> S.ReshuffleUnit(old(Value()), env, u).Panic?
      ensures !panicked ==> S.ReshuffleUnit(old(Value()), env, u) == Ok(Value())
    {
      panicked := false;
      if u in tData {
        if tData[u].dirty {
          var e := R.ReshuffleDirty(tData[u], S.ActiveOf(env, u));
          if e.Panic? {
            return true;
          }
          StoreRec(u, e.value);
        }
        TryGcEmptyUnit(u);
      }
    }

    method Reshuffle(env: S.CommitEnv) returns (panicked: bool, ghost order: seq<UnitId>)
      modifies this`tData, this`tReady, this`readys, this`up, this`sync
      ensures S.Enumerates(order, old(tData).Keys)
      ensures panicked <==> S.ReshuffleUnits(old(Value()), env, order).Panic?
      ensures !panicked ==>
        S.ReshuffleUnits(old(Value()), env, order).Ok? &&
        Value() == S.ReshuffleUnits(old(Value()), env, order).value.(sync := true)
    {
      ghost var t0 := Value();
      var us := AnyOrder(tData.Keys);
      order := us;
      var i := 0;
      while i < |us|
        invariant i <= |us| && S.ReshuffleUnits(t0, env, us[..i]) == Ok(Value())
      {
        panicked := ReshuffleNext(env, us, i, t0);
        if panicked {
          return;
        }
        i := i + 1;
      }
      assert us[..i] == us;
      sync := true;
      panicked := false;
    }

    method ReshuffleNext(env: S.CommitEnv, us: seq<UnitId>, i: nat, ghost t0: S.Tab) returns (panicked: bool)
      requires i < |us| && S.ReshuffleUnits(t0, env, us[..i]) == Ok(Value())
      modifies this`tData, this`tReady, this`readys, this`up
      ensures panicked ==> S.ReshuffleUnits(t0, env, us).Panic?
      ensures !panicked ==> S.ReshuffleUnits(t0, env, us[..i + 1]) == Ok(Value())
    {
      ReshuffleUpTo(t0, env, us, i, Value(), S.ReshuffleUnit(Value(), env, us[i]));
      panicked := ReshuffleEntry(env, us[i]);
    }

    /** The stage is merged in, unless one of its ids is taken. The id index is brought up
        to date once, at the end. */
    method Commit(s: S.Stage, env: S.CommitEnv) returns (panicked: bool, committed: bool, changes: S.Changes, ghost order: seq<UnitId>)
      modifies this
      ensures S.Enumerates(order, old(tData).Keys + s.units.Keys)
      ensures panicked <==> S.Commit(old(Value()), s, env, order).Panic?
      ensures !panicked && !committed ==> S.Commit(old(Value()), s, env, order) == Ok(S.Refused) && Value() == old(Value())
      ensures !panicked && committed ==> S.Commit(old(Value()), s, env, order) == Ok(S.Committed(Value(), changes))
    {
      panicked, committed, changes := false, false, S.Changes(map[], map[]);
      order := AnyOrder(tData.Keys + s.units.Keys);
      if !(tId.Keys !! s.ids.Keys) {
        return;
      }
      var recs, ids := tData, tId;
      ghost var t := Value();
      var recs1;
      panicked, recs1, order := CommitUnits(s, env);
      if panicked {
        CommitPanics(t, s, env, order);
        return;
      }
      var adds := S.AddedIds(recs, s, env);
      var gone := S.DroppedIds(recs, s, env) + S.MergedIds(recs1, env);
      var all := ids + adds;
      tId := all - gone;
      committed := true;
      changes := S.Changes(adds, map id | id in all && id in gone :: all[id]);
      CommitDone(t, s, env, order, recs1, Value());
    }

    /** Isolation, merging and reshuffle. */
    method CommitUnits(s: S.Stage, env: S.CommitEnv) returns (panicked: bool, recs1: S.Recs, ghost order: seq<UnitId>)
      modifies this`tData, this`tReady, this`readys, this`up, this`sync
      ensures S.Enumerates(order, old(tData).Keys + s.units.Keys)
      ensures
        var e := S.StageAll(old(tData), s, env);
        && (panicked <==> e.Panic? || S.ReshuffleUnits(old(Value()).(recs := e.value, sync := false), env, order).Panic?)
        && (!panicked ==>
              && e == Ok(recs1) && sync
              && Value() == S.ReshuffleUnits(old(Value()).(recs := recs1, sync := false), env, order).value.(sync := true))
    {
      var recs := tData;
      recs1 := recs;
      order := AnyOrder(tData.Keys + s.units.Keys);
      panicked := IsolateSuspends(s, env);
      if !panicked {
        panicked := MergeSuspends(s, env, recs);
      }
      if !panicked {
        recs1 := tData;
        panicked, order := Reshuffle(env);
      }
    }
  }

  lemma CommitPanics(t: S.Tab, s: S.Stage, env: S.CommitEnv, order: seq<UnitId>)
    requires t.ids.Keys !! s.ids.Keys
    requires
      var e := S.StageAll(t.recs, s, env);
      e.Panic? || S.ReshuffleUnits(t.(recs := e.value, sync := false), env, order).Panic?
    ensures S.Commit(t, s, env, order).Panic?
  {
  }

  lemma CommitDone(t: S.Tab, s: S.Stage, env: S.CommitEnv, order: seq<UnitId>, recs1: S.Recs, t': S.Tab)
    requires t.ids.Keys !! s.ids.Keys && S.StageAll(t.recs, s, env) == Ok(recs1)
    requires S.ReshuffleUnits(t.(recs := recs1, sync := false), env, order).Ok?
    requires
      var (adds, gone) := (S.AddedIds(t.recs, s, env), S.DroppedIds(t.recs, s, env) + S.MergedIds(recs1, env));
      t' == S.ReshuffleUnits(t.(recs := recs1, sync := false), env, order).value.(sync := true, ids := t.ids + adds - gone)
    ensures
      var (adds, gone) := (S.AddedIds(t.recs, s, env), S.DroppedIds(t.recs, s, env) + S.MergedIds(recs1, env));
      var all := t.ids + adds;
      S.Commit(t, s, env, order) == Ok(S.Committed(t', S.Changes(adds, map id | id in all && id in gone :: all[id])))
  {
  }

  /** The units of `done` have been isolated as far as they have to be. */
  predicate IsolatedTo(recs: S.Recs, recs': S.Recs, s: S.Stage, env: S.CommitEnv, done: set<UnitId>) {
    recs'.Keys == recs.Keys &&
    forall u :: u in recs ==>
      if u in done && S.Isolated(s, env, u) then R.FlushSuspends(recs[u]) == Ok(recs'[u]) else recs'[u] == recs[u]
  }

  /** What isolation and merging make of every unit. */
  function Targets(recs: S.Recs, s: S.Stage, env: S.CommitEnv): map<UnitId, Outcome<R.Rec>> {
    map u | u in recs.Keys + s.units.Keys :: S.Staged(recs, s, env, u)
  }

  /** Of the units `keys`, which have staged jobs, those in `done` are at their target;
      the others have been left alone. All other units are at their target. */
  predicate MergedTo(recs: S.Recs, recs': S.Recs, keys: set<UnitId>, c: map<UnitId, Outcome<R.Rec>>, done: set<UnitId>) {
    && recs'.Keys == recs.Keys + (done * keys)
    && (forall u :: u in recs' ==>
          if u in keys && u !in done then u in recs && recs'[u] == recs[u] else u in c && c[u] == Ok(recs'[u]))
  }

  lemma NothingMerged(recs: S.Recs, recs': S.Recs, s: S.Stage, env: S.CommitEnv)
    requires IsolatedTo(recs, recs', s, env, recs.Keys)
    ensures MergedTo(recs, recs', s.units.Keys, Targets(recs, s, env), {})
  {
    forall u | u in recs' && u !in s.units ensures S.Staged(recs, s, env, u) == Ok(recs'[u]) {
      assert u in recs;
    }
  }

  lemma MembersNext(us: seq<UnitId>, i: nat)
    requires i < |us| && S.Distinct(us)
    ensures us[i] in S.Members(us) && us[i] !in S.Members(us[..i])
    ensures S.Members(us[..i + 1]) == S.Members(us[..i]) + {us[i]}
  {
    assert us[..i + 1] == us[..i] + [us[i]];
  }

  lemma IsolateNext(recs: S.Recs, recs': S.Recs, s: S.Stage, env: S.CommitEnv, done: set<UnitId>, u: UnitId)
    requires IsolatedTo(recs, recs', s, env, done) && u in recs && u !in done
    ensures recs'[u] == recs[u]
    ensures S.Isolated(s, env, u) ==> S.Staged(recs, s, env, u) == R.FlushSuspends(recs[u])
    ensures S.Isolated(s, env, u) && R.FlushSuspends(recs[u]).Ok? ==>
      IsolatedTo(recs, recs'[u := R.FlushSuspends(recs[u]).value], s, env, done + {u})
    ensures !S.Isolated(s, env, u) ==> IsolatedTo(recs, recs', s, env, done + {u})
  {
  }

  lemma MergesAsStaged(recs: S.Recs, recs': S.Recs, s: S.Stage, env: S.CommitEnv, done: set<UnitId>, u: UnitId)
    requires MergedTo(recs, recs', s.units.Keys, Targets(recs, s, env), done) && u in s.units && u !in done
    ensures R.MergeSuspends(S.RecOrNew(recs', u), s.units[u]) == S.Staged(recs, s, env, u) == Targets(recs, s, env)[u]
    ensures S.Staged(recs, s, env, u).Panic? ==> S.StageAll(recs, s, env).Panic?
  {
    assert u in recs' ==> u in recs && recs'[u] == recs[u];
  }

  lemma MergeNext(recs: S.Recs, recs': S.Recs, keys: set<UnitId>, c: map<UnitId, Outcome<R.Rec>>, done: set<UnitId>, u: UnitId, r: R.Rec)
    requires MergedTo(recs, recs', keys, c, done) && u in keys && u !in done && u in c && c[u] == Ok(r)
    ensures MergedTo(recs, recs'[u := r], keys, c, done + {u})
  {
    assert recs'[u := r].Keys == recs.Keys + ((done + {u}) * keys);
  }

  lemma AllMerged(recs: S.Recs, recs': S.Recs, s: S.Stage, env: S.CommitEnv)
    requires MergedTo(recs, recs', s.units.Keys, Targets(recs, s, env), s.units.Keys)
    ensures S.StageAll(recs, s, env) == Ok(recs')
  {
    assert recs'.Keys == recs.Keys + s.units.Keys;
    forall u | u in recs' ensures S.Staged(recs, s, env, u) == Ok(recs'[u]) {
      assert Targets(recs, s, env)[u] == Ok(recs'[u]);
    }
    assert recs' == map u | u in recs.Keys + s.units.Keys :: S.Staged(recs, s, env, u).value;
  }

  lemma {:induction false} ReshuffleConcat(t: S.Tab, env: S.CommitEnv, a: seq<UnitId>, b: seq<UnitId>)
    ensures S.ReshuffleUnits(t, env, a + b) ==
      (if S.ReshuffleUnits(t, env, a).Panic? then Panic else S.ReshuffleUnits(S.ReshuffleUnits(t, env, a).value, env, b))
    decreases |a|
  {
    if a == [] {
      assert a + b == b;
    } else {
      assert (a + b)[0] == a[0] && (a + b)[1..] == a[1..] + b;
      var e := S.ReshuffleUnit(t, env, a[0]);
      if e.Ok? {
        ReshuffleConcat(e.value, env, a[1..], b);
      }
    }
  }

  lemma ReshuffleUpTo(t0: S.Tab, env: S.CommitEnv, us: seq<UnitId>, i: nat, t: S.Tab, e: Outcome<S.Tab>)
    requires i < |us| && S.ReshuffleUnits(t0, env, us[..i]) == Ok(t) && e == S.ReshuffleUnit(t, env, us[i])
    ensures S.ReshuffleUnits(t0, env, us[..i + 1]) == e
    ensures e.Panic? ==> S.ReshuffleUnits(t0, env, us).Panic?
  {
    assert us[..i + 1] == us[..i] + [us[i]];
    ReshuffleConcat(t0, env, us[..i], [us[i]]);
    ReshuffleOne(t, env, us[i], e);
    assert us == us[..i + 1] + us[i + 1..];
    ReshuffleConcat(t0, env, us[..i + 1], us[i + 1..]);
  }

  lemma ReshuffleFirst(t: S.Tab, env: S.CommitEnv, us: seq<UnitId>, e: Outcome<S.Tab>)
    requires us != [] && e == S.ReshuffleUnit(t, env, us[0])
    ensures S.ReshuffleUnits(t, env, us) == if e.Panic? then Panic else S.ReshuffleUnits(e.value, env, us[1..])
  {
  }

  lemma ReshuffleOne(t: S.Tab, env: S.CommitEnv, u: UnitId, e: Outcome<S.Tab>)
    requires e == S.ReshuffleUnit(t, env, u)
    ensures S.ReshuffleUnits(t, env, [u]) == e
  {
    ReshuffleFirst(t, env, [u], e);
    assert [u][1..] == [];
  }

  lemma MembersSnoc(us: seq<UnitId>, u: UnitId)
    requires S.Distinct(us) && u !in S.Members(us)
    ensures S.Distinct(us + [u]) && S.Members(us + [u]) == S.Members(us) + {u}
  {
    forall i, j | 0 <= i < j < |us| + 1 ensures (us + [u])[i] != (us + [u])[j] {
      if j == |us| {
        assert us[i] in S.Members(us);
      }
    }
  }

  /** The members in whatever order the map yields them. */
  method AnyOrder(s: set<UnitId>) returns (us: seq<UnitId>)
    ensures S.Enumerates(us, s)
  {
    us := [];
    var rest := s;
    while rest != {}
      invariant rest <= s && S.Members(us) == s - rest && S.Distinct(us)
      decreases rest
    {
      var u :| u in rest;
      MembersSnoc(us, u);
      us, rest := us + [u], rest - {u};
    }
  }
}
