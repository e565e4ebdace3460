/** The unit's record as the original keeps it: an object changed in place
    (process1/src/manager/unit/job/job_unit_entry.rs). Every method is tied to its
    specification in `JobUnitRecord`; `panicked` says that the original aborts. */
module JobUnitEntry {
  import opened Outcomes
  import opened JobEntry
  import R = JobUnitRecord

  /** `js` lists the jobs of `m`, each once, in some order. */
  predicate Lists(js: seq<Job>, m: R.Suspends) {
    && (forall i :: 0 <= i < |js| ==> js[i].kind in m && m[js[i].kind] == js[i])
    && (forall i, j :: 0 <= i < j < |js| ==> js[i].kind != js[j].kind)
    && (forall k :: k in m ==> exists i :: 0 <= i < |js| && js[i].kind == k)
  }

  lemma ListsAppend(js: seq<Job>, m: R.Suspends, j: Job)
    requires Lists(js, m) && j.kind !in m
    ensures Lists(js + [j], m[j.kind := j])
  {
    var t := js + [j];
    var n := m[j.kind := j];
    assert t[|js|] == j;
    forall k | k in n ensures exists i :: 0 <= i < |t| && t[i].kind == k {
      if k in m {
        var i :| 0 <= i < |js| && js[i].kind == k;
        assert t[i].kind == k;
      }
    }
  }

  /** `s` after the staged kinds `d` of `o` have been merged in. */
  function UnionOn(s: R.Suspends, o: R.Suspends, d: set<JobKind>): R.Suspends {
    map k | k in s.Keys + (d * o.Keys) ::
      if k in s && k in d && k in o then MergeAttr(s[k], o[k])
      else if k in s then s[k]
      else o[k].(stage := Wait)
  }

  function AddedOn(s: R.Suspends, o: R.Suspends, d: set<JobKind>): R.Suspends {
    map k | k in d && k in o && k !in s :: o[k].(stage := Wait)
  }

  function UpdatedOn(s: R.Suspends, o: R.Suspends, d: set<JobKind>): R.Suspends {
    map k | k in d && k in o && k in s :: MergeAttr(s[k], o[k])
  }

  function EndedOn(s: R.Suspends, d: set<JobKind>, result: JobResult): R.Suspends {
    map k | k in s && k in d :: s[k].(stage := End(result))
  }

  /** One more job of a filed collection is listed as ended. */
  lemma ListsEnded(js: seq<Job>, s: R.Suspends, d: set<JobKind>, k: JobKind, result: JobResult)
    requires Lists(js, EndedOn(s, d, result)) && k in s && s[k].kind == k && k !in d
    ensures Lists(js + [s[k].(stage := End(result))], EndedOn(s, d + {k}, result))
  {
    ListsAppend(js, EndedOn(s, d, result), s[k].(stage := End(result)));
    assert EndedOn(s, d + {k}, result) == EndedOn(s, d, result)[k := s[k].(stage := End(result))];
  }

  class JobUnit {
    const unit: UnitId
    var suspends: R.Suspends
    var trigger: Option<Job>
    var order: bool
    var sq: seq<JobKind>
    var interrupt: bool
    var retrigger: bool
    var dirty: bool
    var pause: bool
    var ready: bool

    function Value(): R.Rec
      reads this
    {
      R.Rec(suspends, trigger, order, sq, interrupt, retrigger, dirty, pause, ready)
    }

    /** The original keeps jobs under their kind. */
    predicate Filed()
      reads this
    {
      forall k :: k in suspends ==> suspends[k].kind == k
    }

    constructor (unit: UnitId)
      ensures Value() == R.NEW_REC && this.unit == unit
    {
      this.unit := unit;
      suspends, trigger := map[], None;
      order, sq := false, [];
      interrupt, retrigger := false, false;
      dirty, pause, ready := false, false, false;
    }

    method UpdateReady() returns (panicked: bool)
      modifies this`ready
      ensures panicked <==> R.UpdateReady(old(Value())).Panic?
      ensures !panicked ==> R.UpdateReady(old(Value())) == Ok(Value())
    {
      var c := R.CalcReady(Value());
      panicked := c.Panic?;
      if !panicked {
        ready := c.value.Some?;
      }
    }

    method InsertSuspend(job: Job, operate: bool) returns (panicked: bool)
      modifies this`suspends, this`order, this`dirty, this`ready
      ensures panicked <==> R.InsertSuspend(old(Value()), job, operate).Panic?
      ensures !panicked ==> R.InsertSuspend(old(Value()), job, operate) == Ok(Value())
    {
      if !IsBasic(job.kind) || job.stage != Init || (trigger.Some? && trigger.value.id == job.id) {
        return true;
      }
      if job.kind in suspends {
        return true;
      }
      suspends := suspends[job.kind := job];
      order := false;
      dirty := true;
      panicked := UpdateReady();
      if operate {
        suspends := suspends[job.kind := job.(stage := Wait)];
        assert suspends == old(suspends)[job.kind := job.(stage := Wait)];
      }
    }

    /** Of the suspended jobs these are left, to be put in order again. */
    method Disturb(s: R.Suspends)
      modifies this`suspends, this`order, this`dirty, this`ready
      ensures Value() == old(Value()).(suspends := s, order := false, dirty := true, ready := false)
    {
      suspends := s;
      order := false;
      dirty := true;
      var panicked := UpdateReady();
    }

    method RemoveSuspend(kind: JobKind, result: JobResult) returns (panicked: bool, del: Option<Job>)
      requires Filed()
      modifies this
      ensures panicked <==> R.RemoveSuspend(old(Value()), kind, result).Panic?
      ensures !panicked ==> R.RemoveSuspend(old(Value()), kind, result) == Ok(Value()) && Filed()
      ensures !panicked ==>
        del == if kind in old(suspends) then Some(FinishJob(old(suspends)[kind], result).value.0) else None
    {
      panicked, del := false, None;
      if kind in suspends {
        del := Some(suspends[kind]);
      }
      Disturb(suspends - {kind});
      if del.Some? {
        var f := FinishJob(del.value, result);
        if f.Panic? {
          return true, None;
        }
        del := Some(f.value.0);
      }
    }

    method FlushSuspends() returns (panicked: bool, dels: seq<Job>)
      requires Filed()
      modifies this`suspends, this`order, this`dirty, this`ready
      ensures panicked <==> R.FlushSuspends(old(Value())).Panic?
      ensures !panicked ==> R.FlushSuspends(old(Value())) == Ok(Value()) && Filed()
      ensures !panicked ==> Lists(dels, EndedOn(old(suspends), old(suspends).Keys, Cancelled))
    {
      var s := suspends;
      Disturb(map[]);
      panicked, dels := false, [];
      var done: set<JobKind> := {};
      while done != s.Keys
        invariant done <= s.Keys
        invariant forall k :: k in done ==> CanFinish(s[k])
        invariant Lists(dels, EndedOn(s, done, Cancelled))
        modifies {}
        decreases s.Keys - done
      {
        var k :| k in s.Keys - done;
        if !CanFinish(s[k]) {
          return true, dels;
        }
        ListsEnded(dels, s, done, k, Cancelled);
        dels := dels + [s[k].(stage := End(Cancelled))];
        done := done + {k};
      }
      assert forall k :: k in s ==> CanFinish(s[k]);
    }
  
    /** A conflict drops what is suspended; then the staged jobs `o` join. Every job added,
        dropped or updated is listed. */
    method MergeSuspends(o: R.Suspends) returns (panicked: bool, adds: seq<Job>, dels: seq<Job>, updates: seq<Job>)
      requires Filed() && forall k :: k in o ==> o[k].kind == k
      modifies this`suspends, this`order, this`dirty, this`ready
      ensures panicked <==> R.MergeSuspends(old(Value()), o).Panic?
      ensures !panicked ==> R.MergeSuspends(old(Value()), o) == Ok(Value())
      ensures !panicked && R.IsConflictWith(old(suspends), o) ==>
        && Lists(adds, AddedOn(map[], o, o.Keys)) && Lists(updates, UpdatedOn(map[], o, o.Keys))
        && Lists(dels, EndedOn(old(suspends), old(suspends).Keys, Cancelled))
      ensures !panicked && !R.IsConflictWith(old(suspends), o) ==>
        Lists(adds, AddedOn(old(suspends), o, o.Keys)) && Lists(updates, UpdatedOn(old(suspends), o, o.Keys)) && dels == []
    {
      panicked, adds, dels, updates := false, [], [], [];
      if R.IsConflictWith(suspends, o) {
        panicked, dels := FlushSuspends();
        if panicked {
          return;
        }
      }
      panicked, adds, updates := MergeInto(o);
    }

    method MergeInto(o: R.Suspends) returns (panicked: bool, adds: seq<Job>, updates: seq<Job>)
      requires Filed() && forall k :: k in o ==> o[k].kind == k
      modifies this`suspends, this`order, this`dirty, this`ready
      ensures panicked <==> R.MergeInto(old(Value()), o).Panic?
      ensures !panicked ==> R.MergeInto(old(Value()), o) == Ok(Value())
      ensures !panicked ==> Lists(adds, AddedOn(old(suspends), o, o.Keys)) && Lists(updates, UpdatedOn(old(suspends), o, o.Keys))
    {
      ghost var s := suspends;
      panicked, adds, updates := MergeEach(o);
      if !panicked {
        MergingEnd(s, o);
        AddedNothing(adds, s, o);
      }
    }

    /** The kinds are visited in an arbitrary order. */
    method MergeEach(o: R.Suspends) returns (panicked: bool, adds: seq<Job>, updates: seq<Job>)
      requires Filed() && forall k :: k in o ==> o[k].kind == k
      modifies this`suspends, this`order, this`dirty, this`ready
      ensures panicked <==> exists k :: k in o && k !in old(suspends) && !R.CanInsert(trigger, o[k])
      ensures !panicked ==> suspends == UnionOn(old(suspends), o, o.Keys)
      ensures !panicked ==> Lists(adds, AddedOn(old(suspends), o, o.Keys)) && Lists(updates, UpdatedOn(old(suspends), o, o.Keys))
      ensures !panicked && adds == [] ==> order == old(order) && dirty == old(dirty) && ready == old(ready)
      ensures !panicked && adds != [] ==> !order && dirty && !ready
    {
      panicked, adds, updates := false, [], [];
      ghost var s := suspends;
      var done: set<JobKind> := {};
      while done != o.Keys
        invariant done <= o.Keys && Merging(s, o, done, suspends, adds, updates)
        invariant adds == [] ==> order == old(order) && dirty == old(dirty) && ready == old(ready)
        invariant adds != [] ==> !order && dirty && !ready
        invariant forall k :: k in done && k !in s ==> R.CanInsert(trigger, o[k])
        decreases o.Keys - done
      {
        var k :| k in o.Keys - done;
        MergingStep(s, o, done, k, suspends, adds, updates);
        var isNew := k !in suspends;
        var job;
        panicked, job := MergeOne(o[k]);
        if panicked {
          return;
        }
        if isNew {
          adds := adds + [job];
        } else {
          updates := updates + [job];
        }
        done := done + {k};
      }
    }

    /** One staged job: merged into the job of its kind, or inserted. */
    method MergeOne(o: Job) returns (panicked: bool, job: Job)
      modifies this`suspends, this`order, this`dirty, this`ready
      ensures panicked <==> o.kind !in old(suspends) && !R.CanInsert(trigger, o)
      ensures !panicked ==> suspends == old(suspends)[o.kind := job]
      ensures !panicked && o.kind in old(suspends) ==>
        order == old(order) && dirty == old(dirty) && ready == old(ready) && job == MergeAttr(old(suspends)[o.kind], o)
      ensures !panicked && o.kind !in old(suspends) ==> !order && dirty && !ready && job == o.(stage := Wait)
    {
      if o.kind in suspends {
        job := MergeAttr(suspends[o.kind], o);
        suspends := suspends[o.kind := job];
        panicked := false;
      } else {
        job := o.(stage := Wait);
        panicked := InsertSuspend(o, true);
      }
    }

    /** Merge jobs among the suspended ones; the merged jobs are handed back. */
    method JobsMergeSuspend(us: ActiveState) returns (merged: seq<Job>)
      requires Filed()
      modifies this`suspends
      ensures suspends == R.NormalForm(old(suspends), us)
      ensures Lists(merged, old(suspends) - suspends.Keys)
    {
      merged := [];
      if Stop !in suspends {
        if Restart in suspends {
          merged := JobsSuspendsRemove(Start, merged, suspends);
          merged := JobsSuspendsRemove(Reload, merged, old(suspends));
          assert suspends == old(suspends) - {Start, Reload};
        } else if Start in suspends && Reload in suspends {
          if ActiveOrReloading(us) {
            merged := JobsSuspendsRemove(Start, merged, suspends);
          } else {
            merged := JobsSuspendsRemove(Reload, merged, suspends);
          }
        }
      }
    }

    method JobsSuspendsRemove(kind: JobKind, merged: seq<Job>, ghost s: R.Suspends) returns (merged': seq<Job>)
      requires suspends.Keys <= s.Keys && (forall k :: k in suspends ==> s[k] == suspends[k] && s[k].kind == k)
      requires Lists(merged, s - suspends.Keys)
      modifies this`suspends
      ensures suspends == old(suspends) - {kind}
      ensures Lists(merged', s - suspends.Keys)
    {
      merged' := merged;
      if kind in suspends {
        ListsAppend(merged, s - suspends.Keys, suspends[kind]);
        merged' := merged + [suspends[kind]];
        assert s - (suspends.Keys - {kind}) == (s - suspends.Keys)[kind := suspends[kind]];
      } else {
        assert suspends - {kind} == suspends;
      }
      suspends := suspends - {kind};
    }

    /** Rebuild the queue; the two asserts of the original are the abort. */
    method SqOrder() returns (panicked: bool)
      modifies this`sq
      ensures panicked <==> Stop !in suspends && (|R.Mutators(suspends)| > 1 || |R.QueueOf(suspends)| > 3)
      ensures !panicked ==> sq == R.QueueOf(suspends)
    {
      panicked := false;
      sq := [];
      if Stop !in suspends {
        SqOrderPushBack(Restart);
        SqOrderPushBack(Start);
        SqOrderPushBack(Reload);
        if |sq| > 1 {
          return true;
        }
        SqOrderPushBack(Verify);
        SqOrderPushBack(Nop);
        if |sq| > 3 {
          return true;
        }
      } else {
        SqOrderPushBack(Stop);
      }
    }

    method SqOrderPushBack(kind: JobKind)
      modifies this`sq
      ensures sq == old(sq) + R.One(suspends, kind)
    {
      if kind in suspends {
        sq := sq + [kind];
      }
    }

    method JobsMergeTriggerPrepare()
      modifies this`interrupt
      ensures interrupt == if trigger.Some? && sq != [] then IsStopping(sq[0]) else old(interrupt)
    {
      if trigger.Some? && sq != [] {
        interrupt := sq[0] == Stop || sq[0] == Restart;
      }
    }

    method Reshuffle(us: ActiveState) returns (panicked: bool, merged: seq<Job>)
      requires Filed()
      modifies this`suspends, this`order, this`sq, this`interrupt, this`ready
      ensures panicked <==> R.Reshuffle(old(Value()), us).Panic?
      ensures !panicked ==> R.Reshuffle(old(Value()), us) == Ok(Value())
      ensures !panicked && !old(order) ==> Lists(merged, EndedOn(old(suspends), old(suspends).Keys - suspends.Keys, Merged))
    {
      panicked, merged := false, [];
      if R.IsConflict(suspends) {
        return true, merged;
      }
      if order {
        panicked := Prepare();
      } else {
        panicked, merged := Reorder(us);
      }
    }

    method Reorder(us: ActiveState) returns (panicked: bool, merged: seq<Job>)
      requires Filed() && !order && !R.IsConflict(suspends)
      modifies this`suspends, this`order, this`sq, this`interrupt, this`ready
      ensures panicked <==> R.Reshuffle(old(Value()), us).Panic?
      ensures !panicked ==> R.Reshuffle(old(Value()), us) == Ok(Value())
      ensures !panicked ==> Lists(merged, EndedOn(old(suspends), old(suspends).Keys - suspends.Keys, Merged))
    {
      ghost var r := Value();
      ReshuffleAnew(r, us);
      panicked, merged := OrderSuspends(us);
      if !panicked {
        panicked, merged := PrepareMerged(merged, r.suspends);
      }
    }

    method PrepareMerged(jobs: seq<Job>, ghost s: R.Suspends) returns (panicked: bool, merged: seq<Job>)
      requires Lists(jobs, s - suspends.Keys)
      modifies this`interrupt, this`ready
      ensures
        var r := old(Value());
        var e := R.UpdateReady(r.(interrupt := if r.trigger.Some? && r.sq != [] then IsStopping(r.sq[0]) else r.interrupt));
        && (panicked <==> e.Panic? || exists k :: k in s && k !in suspends && !CanFinish(s[k]))
        && (!panicked ==> e == Ok(Value()) && Lists(merged, EndedOn(s, s.Keys - suspends.Keys, Merged)))
    {
      var stuck := Prepare();
      panicked, merged := FinishMerged(jobs, s, suspends.Keys);
      panicked := panicked || stuck;
    }

    method Prepare() returns (panicked: bool)
      modifies this`interrupt, this`ready
      ensures
        var r := old(Value());
        var r1 := r.(interrupt := if r.trigger.Some? && r.sq != [] then IsStopping(r.sq[0]) else r.interrupt);
        && (panicked <==> R.UpdateReady(r1).Panic?)
        && (!panicked ==> R.UpdateReady(r1) == Ok(Value()))
    {
      JobsMergeTriggerPrepare();
      panicked := UpdateReady();
    }

    method OrderSuspends(us: ActiveState) returns (panicked: bool, merged: seq<Job>)
      requires Filed()
      modifies this`suspends, this`order, this`sq
      ensures
        var n := R.NormalForm(old(suspends), us);
        && suspends == n
        && (panicked <==> Stop !in n && (|R.Mutators(n)| > 1 || |R.QueueOf(n)| > 3))
        && (!panicked ==> Value() == old(Value()).(suspends := n, sq := R.QueueOf(n), order := true))
      ensures Lists(merged, old(suspends) - suspends.Keys)
    {
      merged := JobsMergeSuspend(us);
      panicked := SqOrder();
      if !panicked {
        order := true;
      }
    }

    method FinishMerged(jobs: seq<Job>, ghost s: R.Suspends, ghost kept: set<JobKind>) returns (panicked: bool, merged: seq<Job>)
      requires Lists(jobs, s - kept)
      ensures panicked <==> exists k :: k in s && k !in kept && !CanFinish(s[k])
      ensures !panicked ==> Lists(merged, EndedOn(s, s.Keys - kept, Merged))
    {
      panicked, merged := false, [];
      ghost var m := s - kept;
      for i := 0 to |jobs|
        invariant |merged| == i
        invariant forall j :: 0 <= j < i ==> CanFinish(jobs[j]) && merged[j] == jobs[j].(stage := End(Merged))
      {
        if !CanFinish(jobs[i]) {
          assert jobs[i].kind in m;
          return true, merged;
        }
        merged := merged + [jobs[i].(stage := End(Merged))];
      }
      forall k | k in m ensures CanFinish(m[k]) && exists i :: 0 <= i < |merged| && merged[i].kind == k {
        var i :| 0 <= i < |jobs| && jobs[i].kind == k;
        assert merged[i].kind == k;
      }
      assert forall k :: k in s && k !in kept ==> k in m && m[k] == s[k];
      assert EndedOn(s, s.Keys - kept, Merged) == EndedOn(m, m.Keys, Merged);
    }

    method Pause() returns (panicked: bool)
      modifies this`dirty, this`pause, this`ready
      ensures panicked <==> R.PauseRec(old(Value())).Panic?
      ensures !panicked ==> R.PauseRec(old(Value())) == Ok(Value())
    {
      if !order {
        return true;
      }
      dirty := true;
      pause := true;
      panicked := UpdateReady();
    }

    method Resume() returns (panicked: bool)
      modifies this`dirty, this`pause, this`ready
      ensures panicked <==> R.ResumeRec(old(Value())).Panic?
      ensures !panicked ==> R.ResumeRec(old(Value())) == Ok(Value())
    {
      if !order {
        return true;
      }
      dirty := true;
      pause := false;
      panicked := UpdateReady();
    }

    method RetriggerTrigger() returns (panicked: bool)
      modifies this`dirty, this`retrigger, this`ready
      ensures panicked <==> R.RetriggerTrigger(old(Value())).Panic?
      ensures !panicked ==> R.RetriggerTrigger(old(Value())) == Ok(Value())
    {
      if trigger.None? {
        return true;
      }
      retrigger := true;
      dirty := true;
      panicked := UpdateReady();
      if !order {
        panicked := true;
      }
    }

    method DoNextTrigger() returns (panicked: bool, merged: Option<Job>)
      requires R.QueueSound(Value())
      modifies this`interrupt, this`trigger, this`sq, this`suspends, this`retrigger, this`dirty, this`ready
      ensures panicked <==> R.NextTrigger(old(Value())).Panic?
      ensures !panicked ==> R.NextTrigger(old(Value())) == Ok((Value(), merged))
    {
      panicked, merged := false, None;
      var c := R.CalcReady(Value());
      if c == Ok(Some(true)) {
        if interrupt {
          interrupt := false;
          merged := trigger;
        }
        var kind := sq[0];
        sq := sq[1..];
        trigger := Some(suspends[kind]);
        suspends := suspends - {kind};
        dirty := true;
        panicked := UpdateReady();
      } else if c == Ok(Some(false)) {
        if interrupt {
          return true, None;
        }
        retrigger := false;
        dirty := true;
        panicked := UpdateReady();
      } else {
        panicked := true;
      }
    }

    /** Hand the next trigger to the unit, which answers with `act` and `us`. */
    method DoTrigger(act: Option<ActionError>, us: ActiveState)
      returns (panicked: bool, out: RunOutcome, merged: Option<Job>)
      requires R.QueueSound(Value())
      modifies this
      ensures panicked <==> R.DoTrigger(old(Value()), act, us).Panic?
      ensures !panicked ==> R.DoTrigger(old(Value()), act, us) == Ok((Value(), out, merged))
    {
      out := Launched;
      panicked, merged := DoNextTrigger();
      if !panicked {
        panicked, out := HandTrigger(act, us);
      }
      if !panicked && merged.Some? && !CanFinish(merged.value) {
        panicked := true;
      }
    }

    /** The trigger is handed over; if it is to be tried again the unit is paused. */
    method HandTrigger(act: Option<ActionError>, us: ActiveState) returns (panicked: bool, out: RunOutcome)
      requires trigger.Some?
      modifies this
      ensures panicked <==> R.HandTrigger(old(Value()), act, us).Panic?
      ensures !panicked ==> R.HandTrigger(old(Value()), act, us) == Ok((Value(), out))
    {
      ghost var r := Value();
      panicked, out := RunTrigger(act, us);
      if !panicked && out.Again? {
        panicked := PauseAgain();
      }
      HandSteps(r, act, us);
    }

    method RunTrigger(act: Option<ActionError>, us: ActiveState) returns (panicked: bool, out: RunOutcome)
      requires trigger.Some?
      modifies this`trigger
      ensures panicked <==> RunJob(old(trigger).value, act, us).Panic?
      ensures !panicked ==>
        RunJob(old(trigger).value, act, us).value.1 == out &&
        Value() == old(Value()).(trigger := Some(RunJob(old(trigger).value, act, us).value.0))
    {
      var run := RunJob(trigger.value, act, us);
      panicked, out := run.Panic?, Launched;
      if !panicked {
        trigger := Some(run.value.0);
        out := run.value.1;
      }
    }

    method PauseAgain() returns (panicked: bool)
      modifies this`dirty, this`pause, this`retrigger, this`ready
      ensures
        var e := R.PauseRec(old(Value()));
        && (panicked <==> e.Panic? || R.RetriggerTrigger(e.value).Panic?)
        && (!panicked ==> R.RetriggerTrigger(e.value) == Ok(Value()))
    {
      panicked := Pause();
      if !panicked {
        panicked := RetriggerTrigger();
      }
    }

    method FinishTrigger(result: JobResult) returns (panicked: bool, del: Option<Job>)
      modifies this`trigger, this`interrupt, this`retrigger, this`dirty, this`ready
      ensures panicked <==> R.FinishTrigger(old(Value()), result).Panic?
      ensures !panicked ==> R.FinishTrigger(old(Value()), result) == Ok((Value(), del))
    {
      panicked, del := false, None;
      if trigger.None? {
        return true, None;
      }
      var f := FinishJob(trigger.value, result);
      if f.Panic? {
        return true, None;
      }
      trigger := Some(f.value.0);
      if f.value.1 {
        panicked := RetriggerTrigger();
        if panicked {
          return;
        }
      } else {
        interrupt := false;
        del := trigger;
        trigger := None;
      }
      panicked := EndChange();
    }

    /** The readiness is brought up to date; the record has to be in order. */
    method EndChange() returns (panicked: bool)
      modifies this`dirty, this`ready
      ensures
        var e := R.UpdateReady(old(Value()).(dirty := true));
        && (panicked <==> e.Panic? || !e.value.order)
        && (!panicked ==> e == Ok(Value()))
    {
      dirty := true;
      panicked := UpdateReady();
      if !order {
        panicked := true;
      }
    }

    /** May the next job of this unit go ahead of everything `other` holds? */
    method IsNextTriggerOrderWith(other: JobUnit, atom: OrderAtom) returns (panicked: bool, free: bool)
      requires R.QueueSound(Value())
      ensures panicked <==> R.NextTriggerOrderWith(Value(), other.Value(), atom).Panic?
      ensures !panicked ==> R.NextTriggerOrderWith(Value(), other.Value(), atom) == Ok(free)
    {
      panicked, free := false, true;
      if !ready || !other.order {
        return true, false;
      }
      var next := R.NextJob(Value());
      if next.Panic? {
        return true, false;
      }
      var job := next.value;
      if job.ignoreOrder || job.kind == Nop {
        return false, true;
      }
      var held := other.suspends;
      var done: set<JobKind> := {};
      while done != held.Keys
        invariant done <= held.Keys
        invariant forall k :: k in done ==> IsOrderWith(job, held[k], atom) <= 0
        decreases held.Keys - done
      {
        assert held.Keys == done + (held.Keys - done);
        var k :| k in held.Keys - done;
        if IsOrderWith(job, held[k], atom) > 0 {
          return false, false;
        }
        done := done + {k};
      }
      if other.trigger.Some? && IsOrderWith(job, other.trigger.value, atom) > 0 {
        free := false;
      }
    }
  }

  /** A hand-over, step by step. */
  lemma HandSteps(r: R.Rec, act: Option<ActionError>, us: ActiveState)
    requires r.trigger.Some?
    ensures
      var run := RunJob(r.trigger.value, act, us);
      R.HandTrigger(r, act, us) ==
        if run.Panic? then Panic
        else
          var r1 := r.(trigger := Some(run.value.0));
          if !run.value.1.Again? then Ok((r1, run.value.1))
          else if R.PauseRec(r1).Panic? || R.RetriggerTrigger(R.PauseRec(r1).value).Panic? then Panic
          else Ok((R.RetriggerTrigger(R.PauseRec(r1).value).value, run.value.1))
  {
  }

  /** A reshuffle of a record out of order, step by step. */
  lemma ReshuffleAnew(r: R.Rec, us: ActiveState)
    requires !r.order && !R.IsConflict(r.suspends)
    ensures
      var n := R.NormalForm(r.suspends, us);
      var r1 := r.(suspends := n, sq := R.QueueOf(n), order := true);
      R.Reshuffle(r, us) ==
        if Stop !in n && (|R.Mutators(n)| > 1 || |R.QueueOf(n)| > 3) then Panic
        else if exists k :: k in r.suspends && k !in n && !CanFinish(r.suspends[k]) then Panic
        else R.UpdateReady(r1.(interrupt := if r1.trigger.Some? && r1.sq != [] then IsStopping(r1.sq[0]) else r1.interrupt))
  {
  }

  lemma AddedStep(js: seq<Job>, s: R.Suspends, o: R.Suspends, d: set<JobKind>, k: JobKind)
    requires k in o && o[k].kind == k && k !in d && Lists(js, AddedOn(s, o, d))
    ensures k !in s ==> Lists(js + [o[k].(stage := Wait)], AddedOn(s, o, d + {k}))
    ensures k in s ==> AddedOn(s, o, d + {k}) == AddedOn(s, o, d)
  {
    if k !in s {
      var j := o[k].(stage := Wait);
      assert AddedOn(s, o, d + {k}) == AddedOn(s, o, d)[k := j];
      ListsAppend(js, AddedOn(s, o, d), j);
    }
  }

  lemma UpdatedStep(js: seq<Job>, s: R.Suspends, o: R.Suspends, d: set<JobKind>, k: JobKind)
    requires k in o && k !in d && (k in s ==> s[k].kind == k) && Lists(js, UpdatedOn(s, o, d))
    ensures k in s ==> Lists(js + [MergeAttr(s[k], o[k])], UpdatedOn(s, o, d + {k}))
    ensures k !in s ==> UpdatedOn(s, o, d + {k}) == UpdatedOn(s, o, d)
  {
    if k in s {
      var j := MergeAttr(s[k], o[k]);
      assert UpdatedOn(s, o, d + {k}) == UpdatedOn(s, o, d)[k := j];
      ListsAppend(js, UpdatedOn(s, o, d), j);
    }
  }

  lemma AddedNothing(js: seq<Job>, s: R.Suspends, o: R.Suspends)
    requires Lists(js, AddedOn(s, o, o.Keys))
    ensures js == [] <==> o.Keys <= s.Keys
  {
    if js != [] {
      assert js[0].kind in AddedOn(s, o, o.Keys);
    }
    if !(o.Keys <= s.Keys) {
      var k :| k in o && k !in s;
      assert k in AddedOn(s, o, o.Keys);
    }
  }

  /** What merging the kinds of `d` has made of the suspended jobs. */
  predicate Merging(s: R.Suspends, o: R.Suspends, d: set<JobKind>, cur: R.Suspends, adds: seq<Job>, updates: seq<Job>) {
    cur == UnionOn(s, o, d) && Lists(adds, AddedOn(s, o, d)) && Lists(updates, UpdatedOn(s, o, d))
  }

  lemma MergingStep(s: R.Suspends, o: R.Suspends, d: set<JobKind>, k: JobKind, cur: R.Suspends, adds: seq<Job>, updates: seq<Job>)
    requires d <= o.Keys && k in o && k !in d && o[k].kind == k && (k in s ==> s[k].kind == k) && Merging(s, o, d, cur, adds, updates)
    ensures k in cur <==> k in s
    ensures k in s ==> cur[k] == s[k]
    ensures k in s ==> var j := MergeAttr(s[k], o[k]); Merging(s, o, d + {k}, cur[k := j], adds, updates + [j])
    ensures k !in s ==> var j := o[k].(stage := Wait); Merging(s, o, d + {k}, cur[k := j], adds + [j], updates)
  {
    UnionStep(s, o, d, k);
    AddedStep(adds, s, o, d, k);
    UpdatedStep(updates, s, o, d, k);
  }

  lemma UnionStep(s: R.Suspends, o: R.Suspends, d: set<JobKind>, k: JobKind)
    requires d <= o.Keys && k in o && k !in d
    ensures k in UnionOn(s, o, d) <==> k in s
    ensures k in s ==>
      && UnionOn(s, o, d)[k] == s[k]
      && UnionOn(s, o, d + {k}) == UnionOn(s, o, d)[k := MergeAttr(s[k], o[k])]
    ensures k !in s ==> UnionOn(s, o, d + {k}) == UnionOn(s, o, d)[k := o[k].(stage := Wait)]
  {
  }

  lemma MergingEnd(s: R.Suspends, o: R.Suspends)
    ensures UnionOn(s, o, o.Keys) == R.Union(s, o)
  {
    assert o.Keys * o.Keys == o.Keys;
  }
}
