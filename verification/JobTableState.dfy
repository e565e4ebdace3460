/** The table of all jobs, by unit, by id and by readiness, and what every
    operation makes of it (process1/src/manager/unit/job/job_table.rs).
    `JobTableObject` holds the object that is updated in place.

    A unit's record is a value here, so a record that was dropped while its unit
    waits in `readys` is represented by a unit of `readys` without a record. */
module JobTableState {
  import opened Outcomes
  import opened UnitBase
  import opened JobEntry
  import R = JobUnitRecord

  /** The parts of a job that never change, as reached through its id. */
  datatype JobRef = JobRef(unit: UnitId, kind: JobKind)

  /** `tReady` in the order of the unit ids, `readys` the batch being worked off,
      `up` the units whose record has its up-ready flag set. */
  datatype Index = Index(tReady: set<UnitId>, readys: seq<UnitId>, up: set<UnitId>)

  type Recs = map<UnitId, R.Rec>

  datatype Tab = Tab(recs: Recs, ix: Index, sync: bool, ids: map<nat, JobRef>)

  const NEW_TAB := Tab(map[], Index({}, [], {}), true, map[])

  function ReadyUnits(recs: Recs): set<UnitId> {
    set u | u in recs && recs[u].ready
  }

  // ----- the readiness index; `ready` are the units whose record says so -----

  /** ready_sync while `readys` is empty. */
  function SyncPlain(ix: Index, u: UnitId, ready: set<UnitId>): Index {
    if u in ready then
      if u !in ix.up then ix.(tReady := ix.tReady + {u}, up := ix.up + {u}) else ix
    else
      if u in ix.up then ix.(tReady := ix.tReady - {u}, up := ix.up - {u}) else ix
  }

  function SyncEach(ix: Index, us: seq<UnitId>, ready: set<UnitId>): Index
    decreases |us|
  {
    if us == [] then ix else SyncEach(SyncPlain(ix, us[0], ready), us[1..], ready)
  }

  /** The batch goes back into `tReady`, as far as it is still ready. */
  function Backfill(ix: Index, ready: set<UnitId>): Index {
    SyncEach(ix.(readys := []), ix.readys, ready)
  }

  /** Anything that changes first puts the batch back. The calls inside `Backfill`
      find `readys` empty, so they go no deeper. */
  function ReadySync(ix: Index, u: UnitId, ready: set<UnitId>): Index {
    if u in ready && u !in ix.up then
      var b := Backfill(ix, ready);
      b.(tReady := b.tReady + {u}, up := b.up + {u})
    else if u !in ready && u in ix.up then
      var b := Backfill(ix, ready);
      b.(tReady := b.tReady - {u}, up := b.up - {u})
    else ix
  }

  function Members(us: seq<UnitId>): set<UnitId> {
    set u | u in us
  }

  predicate Distinct(us: seq<UnitId>) {
    forall i, j :: 0 <= i < j < |us| ==> us[i] != us[j]
  }

  /** `us` is the set `s` in some order. */
  predicate Enumerates(us: seq<UnitId>, s: set<UnitId>) {
    Distinct(us) && Members(us) == s
  }

  /** A new batch, in the order `order`, if the last one is worked off. */
  function Fill(ix: Index, order: seq<UnitId>): Index {
    if ix.readys == [] then Index({}, order, ix.up - Members(order)) else ix
  }

  function DropUnit(ix: Index, u: UnitId): Index {
    ix.(tReady := ix.tReady - {u}, up := ix.up - {u})
  }

  // ----- may a unit go ahead? -----

  function FreeOf(recs: Recs, r: R.Rec, others: seq<UnitId>, atom: OrderAtom): Outcome<bool>
    requires R.QueueSound(r)
    decreases |others|
  {
    if others == [] then Ok(true)
    else if others[0] in recs then
      var free :- R.NextTriggerOrderWith(r, recs[others[0]], atom);
      if !free then Ok(false) else FreeOf(recs, r, others[1..], atom)
    else FreeOf(recs, r, others[1..], atom)
  }

  function IsRunnable(recs: Recs, db: Db, u: UnitId, r: R.Rec): Outcome<bool>
    requires R.QueueSound(r)
  {
    var a :- FreeOf(recs, r, Gets(db, u, AtomAfter), After);
    if !a then Ok(false) else FreeOf(recs, r, Gets(db, u, AtomBefore), Before)
  }

  // ----- operations -----

  predicate AllSound(recs: Recs) {
    forall u :: u in recs ==> R.QueueSound(recs[u])
  }

  predicate IsEmptyRec(r: R.Rec) {
    r.trigger.None? && r.suspends == map[]
  }

  /** A unit that holds no job any more leaves the table. */
  function Collect(t: Tab, u: UnitId): Tab {
    if u in t.recs && IsEmptyRec(t.recs[u]) then t.(recs := t.recs - {u}, ix := DropUnit(t.ix, u)) else t
  }

  /** Store the record and bring the index up to date. */
  function PutRec(t: Tab, u: UnitId, r: R.Rec): Tab {
    var recs := t.recs[u := r];
    t.(recs := recs, ix := ReadySync(t.ix, u, ReadyUnits(recs)))
  }

  function ResumeUnit(t: Tab, u: UnitId): Outcome<Tab> {
    if u !in t.recs then Ok(t)
    else if t.recs[u].dirty then Panic
    else if !t.recs[u].pause then Ok(t)
    else
      var r :- R.ResumeEntry(t.recs[u]);
      Ok(PutRec(t, u, r))
  }

  function ResumeAll(t: Tab, us: seq<UnitId>): Outcome<Tab>
    decreases |us|
  {
    if us == [] then Ok(t)
    else
      var t1 :- ResumeUnit(t, us[0]);
      ResumeAll(t1, us[1..])
  }

  function ResumeRelated(t: Tab, db: Db, u: UnitId): Outcome<Tab> {
    var t1 :- ResumeAll(t, Gets(db, u, AtomAfter));
    ResumeAll(t1, Gets(db, u, AtomBefore))
  }

  datatype Tried =
    | Nothing
    | Paused(unit: UnitId)
    | Triggered(unit: UnitId, out: RunOutcome, merged: Option<Job>)

  function Without(ids: map<nat, JobRef>, j: Option<Job>): map<nat, JobRef> {
    if j.Some? then ids - {j.value.id} else ids
  }

  /** The last unit of the batch is triggered, or paused if another has to go first.
      A unit whose record is gone has nothing to trigger, which aborts. */
  function TryEntry(t: Tab, db: Db, u: UnitId, act: Option<ActionError>, us: ActiveState): Outcome<(Tab, Tried)>
    requires AllSound(t.recs)
  {
    if u !in t.recs || t.recs[u].dirty then Panic
    else
      var r := t.recs[u];
      var go :- IsRunnable(t.recs, db, u, r);
      if go then
        var (r1, out, merged) :- R.TriggerEntry(r, act, us);
        Ok((t.(recs := t.recs[u := r1], ids := Without(t.ids, merged)), Triggered(u, out, merged)))
      else
        var r1 :- R.PauseEntry(r);
        Ok((t.(recs := t.recs[u := r1]), Paused(u)))
  }

  function TryTrigger(t: Tab, db: Db, order: seq<UnitId>, act: Option<ActionError>, us: ActiveState): Outcome<(Tab, Tried)>
    requires AllSound(t.recs)
  {
    if !t.sync then Panic
    else
      var ix := Fill(t.ix, order);
      if ix.readys == [] then Ok((t.(ix := ix), Nothing))
      else
        var n := |ix.readys| - 1;
        TryEntry(t.(ix := ix.(readys := ix.readys[..n])), db, ix.readys[n], act, us)
  }

  function FinishTrigger(t: Tab, db: Db, u: UnitId, result: JobResult): Outcome<(Tab, Option<Job>)> {
    if !t.sync || u !in t.recs || t.recs[u].trigger.None? || t.recs[u].dirty then Panic
    else
      var (r, del) :- R.FinishEntry(t.recs[u], result);
      var t1 :- ResumeRelated(PutRec(t, u, r), db, u);
      Ok((Collect(t1, u).(ids := Without(t.ids, del)), del))
  }

  /** The ids of the jobs of the given kinds. */
  function IdsOf(s: R.Suspends, ks: set<JobKind>): set<nat> {
    set k | k in s && k in ks :: s[k].id
  }

  function Named(k1: JobKind, k2: Option<JobKind>): set<JobKind> {
    if k2.Some? then {k1, k2.value} else {k1}
  }

  function RemoveSuspends(t: Tab, db: Db, u: UnitId, k1: JobKind, k2: Option<JobKind>, result: JobResult, us: ActiveState): Outcome<Tab> {
    if !t.sync then Panic
    else if u !in t.recs then Ok(t)
    else if t.recs[u].dirty then Panic
    else
      var r :- R.RemoveEntry(t.recs[u], k1, k2, result, us);
      var t1 :- ResumeRelated(PutRec(t, u, r), db, u);
      Ok(Collect(t1, u).(ids := t.ids - IdsOf(t.recs[u].suspends, Named(k1, k2))))
  }

  // ----- commit -----

  /** The staging table: its jobs by unit, and its own id index. */
  datatype Stage = Stage(units: map<UnitId, R.Suspends>, ids: map<nat, JobRef>)

  /** What a commit reads besides the two tables: does the mode isolate, which units
      are exempt from isolation, and the active state of the units. */
  datatype CommitEnv = CommitEnv(isolate: bool, exempt: set<UnitId>, active: map<UnitId, ActiveState>)

  function ActiveOf(env: CommitEnv, u: UnitId): ActiveState {
    if u in env.active then env.active[u] else UnitInActive
  }

  function RecOrNew(recs: Recs, u: UnitId): R.Rec {
    if u in recs then recs[u] else R.NEW_REC
  }

  predicate Isolated(s: Stage, env: CommitEnv, u: UnitId) {
    env.isolate && u !in env.exempt && u !in s.units
  }

  /** A unit's record after isolation and merging. */
  function Staged(recs: Recs, s: Stage, env: CommitEnv, u: UnitId): Outcome<R.Rec> {
    if u in s.units then R.MergeSuspends(RecOrNew(recs, u), s.units[u])
    else if Isolated(s, env, u) then R.FlushSuspends(RecOrNew(recs, u))
    else Ok(RecOrNew(recs, u))
  }

  function StageAll(recs: Recs, s: Stage, env: CommitEnv): Outcome<Recs> {
    if exists u :: u in recs.Keys + s.units.Keys && Staged(recs, s, env, u).Panic? then Panic
    else Ok(map u | u in recs.Keys + s.units.Keys :: Staged(recs, s, env, u).value)
  }

  function ReshuffleUnit(t: Tab, env: CommitEnv, u: UnitId): Outcome<Tab> {
    if u !in t.recs then Ok(t)
    else if !t.recs[u].dirty then Ok(Collect(t, u))
    else
      var r :- R.ReshuffleDirty(t.recs[u], ActiveOf(env, u));
      Ok(Collect(PutRec(t, u, r), u))
  }

  function ReshuffleUnits(t: Tab, env: CommitEnv, us: seq<UnitId>): Outcome<Tab>
    decreases |us|
  {
    if us == [] then Ok(t)
    else
      var t1 :- ReshuffleUnit(t, env, us[0]);
      ReshuffleUnits(t1, env, us[1..])
  }

  /** Does merging the staged jobs, or isolation, drop what the unit had suspended? */
  predicate Dropped(recs: Recs, s: Stage, env: CommitEnv, u: UnitId) {
    u in recs &&
    if u in s.units then R.IsConflictWith(recs[u].suspends, s.units[u]) else Isolated(s, env, u)
  }

  /** The staged jobs that are new to the live table. */
  function AddedIds(recs: Recs, s: Stage, env: CommitEnv): map<nat, JobRef> {
    map id | id in s.ids &&
             !(s.ids[id].unit in recs && s.ids[id].kind in recs[s.ids[id].unit].suspends &&
               !Dropped(recs, s, env, s.ids[id].unit)) :: s.ids[id]
  }

  function DroppedIds(recs: Recs, s: Stage, env: CommitEnv): set<nat> {
    set u, k | u in recs && Dropped(recs, s, env, u) && k in recs[u].suspends :: recs[u].suspends[k].id
  }

  /** The jobs merged away by the reshuffle. */
  function MergedIds(recs: Recs, env: CommitEnv): set<nat> {
    set u, k | u in recs && k in recs[u].suspends && recs[u].dirty && !recs[u].order &&
               k !in R.NormalForm(recs[u].suspends, ActiveOf(env, u)) :: recs[u].suspends[k].id
  }

  datatype Changes = Changes(adds: map<nat, JobRef>, dels: map<nat, JobRef>)

  datatype CommitResult = Refused | Committed(tab: Tab, changes: Changes)

  /** `order` is the order in which the reshuffle visits the units. */
  function Commit(t: Tab, s: Stage, env: CommitEnv, order: seq<UnitId>): Outcome<CommitResult> {
    if !(t.ids.Keys !! s.ids.Keys) then Ok(Refused)
    else
      var recs :- StageAll(t.recs, s, env);
      var t2 :- ReshuffleUnits(t.(recs := recs, sync := false), env, order);
      var adds := AddedIds(t.recs, s, env);
      var gone := DroppedIds(t.recs, s, env) + MergedIds(recs, env);
      var all := t.ids + adds;
      Ok(Committed(t2.(sync := true, ids := all - gone), Changes(adds, map id | id in all && id in gone :: all[id])))
  }

  /** All jobs of a unit leave with it. */
  function RemoveUnit(t: Tab, u: UnitId): Tab {
    if u !in t.recs then t
    else
      t.(recs := t.recs - {u}, ix := DropUnit(t.ix, u),
         ids := Without(t.ids - IdsOf(t.recs[u].suspends, t.recs[u].suspends.Keys), t.recs[u].trigger))
  }
}
