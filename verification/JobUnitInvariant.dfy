/** What a unit's record keeps through every operation, exactly when an operation
    aborts the process, and what a run may do without ever aborting. */
module JobUnitInvariant {
  import opened Outcomes
  import opened JobEntry
  import opened JobUnitRecord

  /** The suspended jobs of the live table: filed under their own kind, waiting,
      not begun. */
  predicate WaitingJobs(s: Suspends) {
    forall k :: k in s ==>
      s[k].kind == k && WfJob(s[k]) && s[k].stage == Wait && s[k].runKind == RunKindNew(k)
  }

  /** The jobs of the staging table. */
  predicate StagedJobs(s: Suspends) {
    forall k :: k in s ==>
      s[k].kind == k && WfJob(s[k]) && s[k].stage == Init && s[k].runKind == RunKindNew(k)
  }

  /** The queue lists the suspended jobs in order, except that a nop once suspended
      beside a stop stays unqueued. */
  predicate QueueOk(r: Rec) {
    r.sq == QueueOf(r.suspends) || (r.sq == [] && r.suspends.Keys == {Nop})
  }

  predicate TriggerOk(r: Rec) {
    r.trigger.Some? ==>
      var j := r.trigger.value;
      WfJob(j) && (j.stage.Running? || (j.stage.Wait? && j.kind.Restart? && !j.runKind.Stop? && r.retrigger))
  }

  /** The flag says that the first queued job may interrupt the trigger. It can be
      left behind by a queued job that was removed, but only in a paused unit. */
  predicate InterruptOk(r: Rec) {
    && (r.interrupt ==> r.trigger.Some?)
    && (r.trigger.Some? && r.sq != [] ==> (r.interrupt <==> IsStopping(r.sq[0])))
    && (r.interrupt && r.sq == [] ==> r.pause)
  }

  predicate ReadyOk(r: Rec) {
    CalcReady(r).Ok? && r.ready == CalcReady(r).value.Some?
  }

  predicate FlagsOk(r: Rec) {
    r.order && !r.dirty && TriggerOk(r) && InterruptOk(r) && ReadyOk(r)
  }

  /** The record of a unit in a synchronised table. */
  predicate Settled(r: Rec) {
    WaitingJobs(r.suspends) && Normal(r.suspends) && QueueOk(r) && FlagsOk(r)
  }

  lemma SettledQueueSound(r: Rec)
    requires Settled(r)
    ensures QueueSound(r)
  {
    QueueOfMeaning(r.suspends);
  }

  // ----- reshuffle -----

  /** The record a reshuffle computes before it brings `ready` up to date. */
  function Reordered(r: Rec, us: ActiveState): Rec {
    var s := NormalForm(r.suspends, us);
    var q := QueueOf(s);
    r.(suspends := s, sq := q, order := true,
       interrupt := if r.trigger.Some? && q != [] then IsStopping(q[0]) else r.interrupt)
  }

  lemma NormalFormWaiting(s: Suspends, us: ActiveState)
    requires WaitingJobs(s)
    ensures WaitingJobs(NormalForm(s, us))
  {
  }

  lemma ReshuffleShape(r: Rec, us: ActiveState)
    requires WaitingJobs(r.suspends) && Consistent(r.suspends) && !r.order
    ensures Reshuffle(r, us) == UpdateReady(Reordered(r, us))
  {
    ConflictMeaning(r.suspends);
    NormalFormMeaning(r.suspends, us);
    NormalFormWaiting(r.suspends, us);
    QueueOfMeaning(NormalForm(r.suspends, us));
  }

  lemma ReorderedFlags(r: Rec, us: ActiveState)
    requires TriggerOk(r) && r.dirty && (r.interrupt ==> r.trigger.Some?)
    ensures
      var r0 := Reordered(r, us);
      && (UpdateReady(r0).Panic? <==> r.interrupt && !r.pause && r0.sq == [])
      && (UpdateReady(r0).Ok? ==>
            && UpdateReady(r0).value == r0.(ready := UpdateReady(r0).value.ready)
            && FlagsOk(Clean(UpdateReady(r0).value)))
  {
  }

  /** A reshuffle of waiting, consistent jobs settles the record; it aborts only
      for a record left with an interrupter that is no longer there. */
  lemma ReshuffleSettles(r: Rec, us: ActiveState)
    requires WaitingJobs(r.suspends) && Consistent(r.suspends) && !r.order && r.dirty && TriggerOk(r)
    requires r.interrupt ==> r.trigger.Some?
    ensures ReshuffleDirty(r, us).Panic? <==> r.interrupt && !r.pause && r.suspends == map[]
    ensures ReshuffleDirty(r, us).Ok? ==>
      var r1 := ReshuffleDirty(r, us).value;
      && Settled(r1) && r1.suspends == NormalForm(r.suspends, us)
      && r1.trigger == r.trigger && r1.retrigger == r.retrigger && r1.pause == r.pause
      && r1.sq == QueueOf(r1.suspends)
      && r1.interrupt == (if r.trigger.Some? && r1.sq != [] then IsStopping(r1.sq[0]) else r.interrupt)
  {
    ReshuffleShape(r, us);
    ReorderedFlags(r, us);
    NormalFormMeaning(r.suspends, us);
    NormalFormWaiting(r.suspends, us);
    QueueOfMeaning(NormalForm(r.suspends, us));
  }

  // ----- merging staged jobs -----

  lemma UnionConsistent(s: Suspends, o: Suspends)
    requires Consistent(s) && Consistent(o) && !IsConflictWith(s, o)
    ensures Consistent(Union(s, o))
  {
    ConflictWithMeaning(s, o);
  }

  lemma UnionWaiting(s: Suspends, o: Suspends)
    requires WaitingJobs(s) && StagedJobs(o)
    ensures WaitingJobs(Union(s, o))
  {
  }

  /** What the suspended jobs of `r` are before the union with `o`. */
  function MergeBase(s: Suspends, o: Suspends): Suspends {
    if IsConflictWith(s, o) then map[] else s
  }

  lemma MergeBaseMeaning(s: Suspends, o: Suspends)
    requires Consistent(s) && Consistent(o)
    ensures Consistent(MergeBase(s, o)) && !IsConflictWith(MergeBase(s, o), o)
    ensures IsConflictWith(s, o) ==> o != map[]
  {
    ConflictWithMeaning(s, o);
    ConflictWithMeaning(MergeBase(s, o), o);
  }

  predicate MergeAborts(r: Rec, o: Suspends) {
    exists k :: k in o && k !in MergeBase(r.suspends, o) && !CanInsert(r.trigger, o[k])
  }

  /** Set aside for a reshuffle with `s` as the suspended jobs. */
  function Disturbed(r: Rec, s: Suspends): Rec {
    r.(suspends := s, order := false, dirty := true, ready := false)
  }

  lemma FlushShape(r: Rec)
    requires WaitingJobs(r.suspends)
    ensures FlushSuspends(r) == Ok(Disturbed(r, map[]))
  {
  }

  lemma MergeSuspendsShape(r: Rec, o: Suspends)
    requires WaitingJobs(r.suspends) && Consistent(r.suspends) && Consistent(o)
    ensures
      var u := Union(MergeBase(r.suspends, o), o);
      MergeSuspends(r, o) ==
        if MergeAborts(r, o) then Panic
        else if o.Keys <= MergeBase(r.suspends, o).Keys then Ok(r.(suspends := u))
        else Ok(Disturbed(r, u))
  {
    FlushShape(r);
    MergeBaseMeaning(r.suspends, o);
    if IsConflictWith(r.suspends, o) {
      var f := Disturbed(r, map[]);
      assert forall k :: k in o ==> CanInsert(r.trigger, o[k]) == CanInsert(f.trigger, o[k]);
      var k :| k in o;
      assert o.Keys != {};
    }
  }

  lemma MergeUpdatesOnly(r: Rec, o: Suspends, us: ActiveState)
    requires Normal(r.suspends) && QueueOk(r) && FlagsOk(r) && o.Keys <= r.suspends.Keys
    ensures
      var r1 := r.(suspends := Union(r.suspends, o));
      && Normal(r1.suspends) && QueueOk(r1) && FlagsOk(r1) && NormalForm(r1.suspends, us) == r1.suspends
  {
    var u := Union(r.suspends, o);
    assert u.Keys == r.suspends.Keys;
    assert forall k :: One(u, k) == One(r.suspends, k);
    NormalFormFixed(u, us);
  }

  lemma MergeBaseKeeps(r: Rec, o: Suspends)
    requires WaitingJobs(r.suspends) && Consistent(r.suspends) && StagedJobs(o) && Consistent(o)
    ensures WaitingJobs(Union(MergeBase(r.suspends, o), o)) && Consistent(Union(MergeBase(r.suspends, o), o))
    ensures o != map[] ==> Union(MergeBase(r.suspends, o), o) != map[]
    ensures o.Keys <= MergeBase(r.suspends, o).Keys ==> MergeBase(r.suspends, o) == r.suspends
  {
    var base := MergeBase(r.suspends, o);
    MergeBaseMeaning(r.suspends, o);
    UnionConsistent(base, o);
    UnionWaiting(base, o);
    if o != map[] {
      var k :| k in o;
      assert k in Union(base, o);
    }
  }

  /** Merging staged jobs into a record aborts exactly when one of them has the id
      of the trigger; otherwise the record ends with the normal form of the staged
      jobs on a conflict, or of the union. */
  lemma MergeEntrySettles(r: Rec, o: Suspends, us: ActiveState)
    requires Settled(r) && StagedJobs(o) && Consistent(o)
    ensures MergeEntry(r, o, us).Panic? <==> MergeAborts(r, o)
    ensures MergeEntry(r, o, us).Ok? ==>
      var r1 := MergeEntry(r, o, us).value;
      && Settled(r1) && r1.suspends == NormalForm(Union(MergeBase(r.suspends, o), o), us)
      && r1.trigger == r.trigger && r1.retrigger == r.retrigger && r1.pause == r.pause
  {
    MergeSuspendsShape(r, o);
    if !MergeAborts(r, o) {
      if o.Keys <= MergeBase(r.suspends, o).Keys {
        MergeBaseKeeps(r, o);
        MergeUpdatesOnly(r, o, us);
      } else {
        MergeDisturbs(r, o, us);
      }
    }
  }

  lemma MergeDisturbs(r: Rec, o: Suspends, us: ActiveState)
    requires Settled(r) && StagedJobs(o) && Consistent(o) && o != map[]
    ensures
      var u := Union(MergeBase(r.suspends, o), o);
      var e := ReshuffleDirty(Disturbed(r, u), us);
      e.Ok? && Settled(e.value) && e.value.suspends == NormalForm(u, us) &&
      e.value.trigger == r.trigger && e.value.retrigger == r.retrigger && e.value.pause == r.pause
  {
    MergeBaseKeeps(r, o);
    ReshuffleSettles(Disturbed(r, Union(MergeBase(r.suspends, o), o)), us);
  }

  /** Isolation leaves nothing suspended; it aborts exactly when a job is about to
      interrupt the trigger and the unit is not paused. */
  lemma IsolateEntrySettles(r: Rec, us: ActiveState)
    requires Settled(r)
    ensures IsolateEntry(r, us).Panic? <==> r.interrupt && !r.pause
    ensures IsolateEntry(r, us).Ok? ==>
      var r1 := IsolateEntry(r, us).value;
      Settled(r1) && r1.suspends == map[] && r1.trigger == r.trigger && r1.pause == r.pause && r1.retrigger == r.retrigger
  {
    FlushShape(r);
    NormalFormMeaning(map[], us);
    ReshuffleSettles(Disturbed(r, map[]), us);
  }

  // ----- removal -----

  /** The suspended jobs left by a removal. */
  function Remaining(s: Suspends, k1: JobKind, k2: Option<JobKind>): Suspends {
    if k2.Some? then s - {k1} - {k2.value} else s - {k1}
  }

  lemma RemainingKeeps(s: Suspends, k1: JobKind, k2: Option<JobKind>)
    requires WaitingJobs(s) && Normal(s)
    ensures WaitingJobs(Remaining(s, k1, k2)) && Normal(Remaining(s, k1, k2))
  {
  }

  lemma RemoveShape(r: Rec, k1: JobKind, k2: Option<JobKind>, result: JobResult, us: ActiveState)
    requires WaitingJobs(r.suspends)
    ensures RemoveEntry(r, k1, k2, result, us) == ReshuffleDirty(Disturbed(r, Remaining(r.suspends, k1, k2)), us)
  {
  }

  /** The reshuffle inside a removal, whose list of merged jobs is thrown away,
      has nothing to merge: exactly the named jobs leave. The removal aborts exactly
      when it takes the last queued job of a unit that job was to interrupt. */
  lemma RemoveEntrySettles(r: Rec, k1: JobKind, k2: Option<JobKind>, result: JobResult, us: ActiveState)
    requires Settled(r)
    ensures RemoveEntry(r, k1, k2, result, us).Panic? <==>
      r.interrupt && !r.pause && Remaining(r.suspends, k1, k2) == map[]
    ensures RemoveEntry(r, k1, k2, result, us).Ok? ==>
      var r1 := RemoveEntry(r, k1, k2, result, us).value;
      && Settled(r1) && r1.suspends == Remaining(r.suspends, k1, k2)
      && r1.trigger == r.trigger && r1.pause == r.pause && r1.retrigger == r.retrigger
      && r1.sq == QueueOf(r1.suspends)
      && r1.interrupt == (if r.trigger.Some? && r1.sq != [] then IsStopping(r1.sq[0]) else r.interrupt)
  {
    var s := Remaining(r.suspends, k1, k2);
    RemainingKeeps(r.suspends, k1, k2);
    RemoveShape(r, k1, k2, result, us);
    NormalFormFixed(s, us);
    ReshuffleSettles(Disturbed(r, s), us);
  }

  // ----- pausing -----

  lemma ResumeFlags(r: Rec)
    requires FlagsOk(r)
    ensures ResumeEntry(r).Panic? <==> r.pause && r.interrupt && r.sq == []
    ensures ResumeEntry(r).Ok? ==>
      var r1 := ResumeEntry(r).value;
      FlagsOk(r1) && r1 == r.(pause := false, ready := r1.ready)
  {
  }

  /** Resuming aborts exactly when the paused unit has lost its interrupter. */
  lemma ResumeEntrySettles(r: Rec)
    requires Settled(r)
    ensures ResumeEntry(r).Panic? <==> r.pause && r.interrupt && r.sq == []
    ensures ResumeEntry(r).Ok? ==>
      var r1 := ResumeEntry(r).value;
      Settled(r1) && r1 == r.(pause := false, ready := r1.ready)
  {
    ResumeFlags(r);
  }

  lemma PauseEntrySettles(r: Rec)
    requires Settled(r)
    ensures PauseEntry(r) == Ok(r.(pause := true, ready := false))
    ensures Settled(r.(pause := true, ready := false))
  {
    assert FlagsOk(r.(pause := true, ready := false));
  }

  // ----- triggering -----

  /** The record with the first queued job in the place of the trigger. */
  function Promoted(r: Rec): Rec
    requires r.sq != [] && r.sq[0] in r.suspends
  {
    r.(interrupt := false, trigger := Some(r.suspends[r.sq[0]]), sq := r.sq[1..],
       suspends := r.suspends - {r.sq[0]})
  }

  lemma QueueTail(s: Suspends, k: JobKind)
    requires Normal(s) && QueueOf(s) != [] && QueueOf(s)[0] == k
    ensures k.Stop? ==> QueueOf(s)[1..] == []
    ensures !k.Stop? ==> QueueOf(s)[1..] == QueueOf(s - {k})
  {
    var t := s - {k};
    if !k.Stop? {
      assert Stop !in s;
      assert One(t, k) == [];
      assert forall x :: x != k ==> One(t, x) == One(s, x);
      assert QueueOf(s) == [k] + QueueOf(t);
    }
  }

  /** A nop suspended beside a stop is never queued: when the stop is triggered the
      nop stays behind, and only then do queue and suspended jobs disagree. */
  lemma PromotedQueue(r: Rec)
    requires WaitingJobs(r.suspends) && Normal(r.suspends) && QueueOk(r) && r.sq != []
    ensures r.sq[0] in r.suspends
    ensures QueueOk(Promoted(r))
    ensures Promoted(r).sq != QueueOf(Promoted(r).suspends) <==> r.sq[0].Stop? && Nop in r.suspends
  {
    var s := r.suspends;
    var k := r.sq[0];
    QueueOfMeaning(s);
    QueueTail(s, k);
    var t := s - {k};
    RemainingKeeps(s, k, None);
    if k.Stop? {
      assert t.Keys == if Nop in s then {Nop} else {};
      QueueOfMeaning(t);
    }
  }

  /** Does handing `j` over answer "try again"? */
  predicate AnswersAgain(j: Job, act: Option<ActionError>, us: ActiveState) {
    TriggerUnit(j.runKind, act, us) == Ok(Again)
  }

  /** A ready unit whose next job is the first queued one. */
  predicate QueueDue(r: Rec) {
    r.ready && CalcReady(r) == Ok(Some(true))
  }

  /** A ready unit whose trigger is due once more. */
  predicate RetriggerDue(r: Rec) {
    r.ready && CalcReady(r) == Ok(Some(false))
  }

  lemma NextTriggerQueued(r: Rec)
    requires FlagsOk(r) && QueueSound(r) && QueueDue(r)
    ensures r.sq != [] && r.sq[0] in r.suspends && !r.pause
    ensures NextTrigger(r) ==
      Ok((Promoted(r).(dirty := true, ready := r.retrigger), if r.interrupt then r.trigger else None))
  {
  }

  /** The record after its first queued job was handed over with answer `out`. */
  function HandedOver(r: Rec, out: RunOutcome): Rec
    requires r.sq != [] && r.sq[0] in r.suspends
  {
    Promoted(r).(trigger := Some(r.suspends[r.sq[0]].(stage := Running)),
                 pause := out.Again?, retrigger := r.retrigger || out.Again?, ready := r.retrigger && !out.Again?)
  }

  lemma HandOver(r: Rec, act: Option<ActionError>, us: ActiveState)
    requires WaitingJobs(r.suspends) && FlagsOk(r) && QueueSound(r) && QueueDue(r)
    ensures r.sq != [] && r.sq[0] in r.suspends
    ensures TriggerUnit(RunKindNew(r.sq[0]), act, us).Ok?
    ensures DoTrigger(r, act, us) ==
      var out := TriggerUnit(RunKindNew(r.sq[0]), act, us).value;
      Ok((HandedOver(r, out).(dirty := true), out, if r.interrupt then r.trigger else None))
  {
    NextTriggerQueued(r);
    var j := r.suspends[r.sq[0]];
    assert IsBasic(j.kind) && j.stage.Wait? && j.runKind == RunKindNew(r.sq[0]);
    assert RunJob(j, act, us).Ok?;
  }

  lemma QueueSecond(s: Suspends)
    requires Normal(s)
    ensures |QueueOf(s)| > 1 ==> !IsStopping(QueueOf(s)[1])
  {
  }

  lemma HandedOverFlags(r: Rec, out: RunOutcome)
    requires WaitingJobs(r.suspends) && FlagsOk(r) && QueueSound(r) && QueueDue(r)
    requires r.sq != [] && r.sq[0] in r.suspends && (|r.sq| > 1 ==> !IsStopping(r.sq[1]))
    ensures FlagsOk(HandedOver(r, out))
  {
  }

  lemma TriggerQueuedSettles(r: Rec, act: Option<ActionError>, us: ActiveState)
    requires Settled(r) && QueueSound(r) && QueueDue(r)
    ensures r.sq != [] && r.sq[0] in r.suspends
    ensures TriggerUnit(RunKindNew(r.sq[0]), act, us).Ok?
    ensures
      var out := TriggerUnit(RunKindNew(r.sq[0]), act, us).value;
      && TriggerEntry(r, act, us) ==
        (if r.retrigger && !out.Again? then Panic
         else Ok((HandedOver(r, out), out, if r.interrupt then r.trigger else None)))
      && Settled(HandedOver(r, out))
  {
    HandOver(r, act, us);
    var out := TriggerUnit(RunKindNew(r.sq[0]), act, us).value;
    PromotedQueue(r);
    RemainingKeeps(r.suspends, r.sq[0], None);
    QueueSecond(r.suspends);
    HandedOverFlags(r, out);
  }

  /** The record after its trigger was handed over once more. */
  function HandedAgain(r: Rec, out: RunOutcome): Rec
    requires r.trigger.Some?
  {
    r.(trigger := Some(r.trigger.value.(stage := Running)), pause := out.Again?, retrigger := out.Again?, ready := false)
  }

  /** The only trigger that can be handed over once more is a restart entering its
      start phase. */
  predicate StartPhaseDue(r: Rec) {
    r.trigger.Some? && r.trigger.value.stage.Wait? && r.trigger.value.kind.Restart? && r.trigger.value.runKind.Start?
  }

  lemma TriggerAgainShape(r: Rec, act: Option<ActionError>, us: ActiveState)
    requires FlagsOk(r) && QueueSound(r) && RetriggerDue(r)
    ensures r.trigger.Some? && r.retrigger && !r.interrupt
    ensures
      if !StartPhaseDue(r) then TriggerEntry(r, act, us).Panic?
      else
        var out := TriggerUnit(Start, act, us).value;
        TriggerEntry(r, act, us) == Ok((HandedAgain(r, out), out, None)) && FlagsOk(HandedAgain(r, out))
  {
    assert NextTrigger(r) == Ok((r.(retrigger := false, dirty := true, ready := false), None));
    var j := r.trigger.value;
    if StartPhaseDue(r) {
      assert RunJob(j, act, us).Ok?;
    } else {
      assert RunJob(j, act, us).Panic?;
    }
  }

  /** Exactly when triggering a unit aborts the process: it is not ready; or the
      trigger is due once more but is not a restart entering its start phase, being
      last answered with EAgain or through both phases; or a queued job is due while
      the flag of an earlier retrigger is still up and the unit does not answer "try
      again". */
  predicate TriggerAborts(r: Rec, act: Option<ActionError>, us: ActiveState)
    requires QueueSound(r) && FlagsOk(r)
  {
    if QueueDue(r) then r.retrigger && !AnswersAgain(r.suspends[r.sq[0]], act, us)
    else !RetriggerDue(r) || !StartPhaseDue(r)
  }

  lemma TriggerEntrySettles(r: Rec, act: Option<ActionError>, us: ActiveState)
    requires Settled(r) && QueueSound(r)
    ensures TriggerEntry(r, act, us).Panic? <==> TriggerAborts(r, act, us)
    ensures TriggerEntry(r, act, us).Ok? ==> Settled(TriggerEntry(r, act, us).value.0)
  {
    if QueueDue(r) {
      TriggerQueuedSettles(r, act, us);
    } else if RetriggerDue(r) {
      TriggerAgainShape(r, act, us);
    }
  }

  // ----- finishing -----

  /** The record after its trigger was finished with `result`. */
  function FinishedRec(r: Rec, result: JobResult): Rec
    requires r.trigger.Some? && CanFinish(r.trigger.value)
  {
    var (j, retry) := FinishJob(r.trigger.value, result).value;
    if retry then r.(trigger := Some(j), retrigger := true, ready := !r.pause)
    else r.(trigger := None, interrupt := false, ready := !r.pause && r.sq != [])
  }

  lemma FinishShape(r: Rec, result: JobResult)
    requires FlagsOk(r) && r.trigger.Some?
    ensures CanFinish(r.trigger.value)
    ensures
      var (j, retry) := FinishJob(r.trigger.value, result).value;
      FinishEntry(r, result) == Ok((FinishedRec(r, result), if retry then None else Some(j)))
  {
  }

  lemma FinishFlags(r: Rec, result: JobResult)
    requires FlagsOk(r) && r.trigger.Some? && CanFinish(r.trigger.value)
    ensures FlagsOk(FinishedRec(r, result))
  {
    FinishRetriesIff(r.trigger.value, result);
  }

  /** Finishing aborts only without a trigger. A restart that was successful stays
      the trigger and waits for another phase; any other trigger leaves. */
  lemma FinishEntrySettles(r: Rec, result: JobResult)
    requires Settled(r)
    ensures FinishEntry(r, result).Panic? <==> r.trigger.None?
    ensures FinishEntry(r, result).Ok? ==>
      && CanFinish(r.trigger.value)
      && FinishEntry(r, result).value.0 == FinishedRec(r, result) && Settled(FinishedRec(r, result))
      && (FinishEntry(r, result).value.1.None? <==>
            result.Done? && r.trigger.value.kind.Restart? && !r.trigger.value.runKind.Restart?)
  {
    if r.trigger.Some? {
      FinishShape(r, result);
      FinishFlags(r, result);
      FinishRetriesIff(r.trigger.value, result);
    }
  }

  // ----- all operations, and runs of them -----

  predicate OpWf(op: UnitOp) {
    op.OpMerge? ==> StagedJobs(op.o) && Consistent(op.o)
  }

  /** Every operation leaves a settled record settled. */
  lemma ApplyOpSettles(r: Rec, op: UnitOp)
    requires Settled(r) && OpWf(op) && QueueSound(r)
    ensures ApplyOp(r, op).Ok? ==> Settled(ApplyOp(r, op).value) && QueueSound(ApplyOp(r, op).value)
  {
    match op {
      case OpIsolate(us) => IsolateEntrySettles(r, us);
      case OpMerge(o, us) => MergeEntrySettles(r, o, us);
      case OpRemove(k1, k2, result, us) => RemoveEntrySettles(r, k1, k2, result, us);
      case OpPause => PauseEntrySettles(r);
      case OpResume => ResumeEntrySettles(r);
      case OpTrigger(act, us) => TriggerEntrySettles(r, act, us);
      case OpFinish(result) => FinishEntrySettles(r, result);
    }
    if ApplyOp(r, op).Ok? {
      SettledQueueSound(ApplyOp(r, op).value);
    }
  }

  /** A run of operations on one unit; it ends at the first abort. */
  function RunOps(r: Rec, ops: seq<UnitOp>): Outcome<Rec>
    requires Settled(r) && forall op :: op in ops ==> OpWf(op)
    decreases |ops|
  {
    if ops == [] then Ok(r)
    else
      SettledQueueSound(r);
      ApplyOpSettles(r, ops[0]);
      var r1 :- ApplyOp(r, ops[0]);
      RunOps(r1, ops[1..])
  }

  /** The invariant of the record, over every run that does not abort. */
  lemma {:induction false} RunOpsSettles(r: Rec, ops: seq<UnitOp>)
    requires Settled(r) && forall op :: op in ops ==> OpWf(op)
    ensures RunOps(r, ops).Ok? ==> Settled(RunOps(r, ops).value)
    decreases |ops|
  {
    if ops != [] {
      SettledQueueSound(r);
      ApplyOpSettles(r, ops[0]);
      var s := ApplyOp(r, ops[0]);
      if s.Ok? {
        RunOpsSettles(s.value, ops[1..]);
      }
    }
  }

  /** Neither a restart nor a retrigger in sight, and no interrupter gone missing. */
  predicate Calm(r: Rec) {
    && Settled(r) && !r.retrigger && Restart !in r.suspends
    && (r.trigger.Some? ==> !r.trigger.value.kind.Restart?)
    && (r.interrupt ==> r.sq != [])
  }

  /** What a caller can check before the call. */
  predicate CalmOp(r: Rec, op: UnitOp)
    requires Settled(r)
  {
    SettledQueueSound(r);
    OpWf(op) &&
    match op
    case OpIsolate(_) => !r.interrupt
    case OpMerge(o, _) => Restart !in o && forall k :: k in o ==> CanInsert(r.trigger, o[k])
    case OpRemove(k1, k2, _, _) => r.interrupt ==> Remaining(r.suspends, k1, k2) != map[]
    case OpPause | OpResume => true
    case OpTrigger(act, us) => r.ready && (QueueDue(r) ==> !AnswersAgain(r.suspends[r.sq[0]], act, us))
    case OpFinish(_) => r.trigger.Some?
  }

  lemma CalmStep(r: Rec, op: UnitOp)
    requires Calm(r) && QueueSound(r) && CalmOp(r, op)
    ensures ApplyOp(r, op).Ok? && Calm(ApplyOp(r, op).value)
  {
    match op {
      case OpIsolate(us) => CalmIsolate(r, us);
      case OpMerge(o, us) => CalmMerge(r, o, us);
      case OpRemove(k1, k2, result, us) => CalmRemove(r, k1, k2, result, us);
      case OpPause => PauseEntrySettles(r);
      case OpResume => ResumeEntrySettles(r);
      case OpTrigger(act, us) => CalmTrigger(r, act, us);
      case OpFinish(result) => FinishEntrySettles(r, result);
    }
  }

  lemma CalmIsolate(r: Rec, us: ActiveState)
    requires Calm(r) && !r.interrupt
    ensures IsolateEntry(r, us).Ok? && Calm(IsolateEntry(r, us).value)
  {
    FlushShape(r);
    NormalFormMeaning(map[], us);
    ReshuffleSettles(Disturbed(r, map[]), us);
  }

  lemma CalmMerge(r: Rec, o: Suspends, us: ActiveState)
    requires Calm(r) && StagedJobs(o) && Consistent(o) && Restart !in o
    requires forall k :: k in o ==> CanInsert(r.trigger, o[k])
    ensures MergeEntry(r, o, us).Ok? && Calm(MergeEntry(r, o, us).value)
  {
    MergeEntrySettles(r, o, us);
    MergeInterrupt(r, o, us);
    assert Restart !in Union(MergeBase(r.suspends, o), o);
  }

  lemma MergeInterrupt(r: Rec, o: Suspends, us: ActiveState)
    requires WaitingJobs(r.suspends) && Consistent(r.suspends) && StagedJobs(o) && Consistent(o)
    requires r.order && !r.dirty && (r.interrupt ==> r.sq != [])
    requires MergeEntry(r, o, us).Ok?
    ensures MergeEntry(r, o, us).value.interrupt ==> MergeEntry(r, o, us).value.sq != []
  {
    var u := Union(MergeBase(r.suspends, o), o);
    MergeSuspendsShape(r, o);
    MergeBaseKeeps(r, o);
    if !(o.Keys <= MergeBase(r.suspends, o).Keys) {
      ReshuffleShape(Disturbed(r, u), us);
      NormalFormMeaning(u, us);
      NormalFormWaiting(u, us);
      QueueOfMeaning(NormalForm(u, us));
    }
  }

  lemma CalmRemove(r: Rec, k1: JobKind, k2: Option<JobKind>, result: JobResult, us: ActiveState)
    requires Calm(r) && (r.interrupt ==> Remaining(r.suspends, k1, k2) != map[])
    ensures RemoveEntry(r, k1, k2, result, us).Ok? && Calm(RemoveEntry(r, k1, k2, result, us).value)
  {
    RemoveEntrySettles(r, k1, k2, result, us);
    RemainingKeeps(r.suspends, k1, k2);
    QueueOfMeaning(Remaining(r.suspends, k1, k2));
  }

  lemma CalmTrigger(r: Rec, act: Option<ActionError>, us: ActiveState)
    requires Calm(r) && QueueSound(r) && r.ready && (QueueDue(r) ==> !AnswersAgain(r.suspends[r.sq[0]], act, us))
    ensures TriggerEntry(r, act, us).Ok? && Calm(TriggerEntry(r, act, us).value.0)
  {
    TriggerQueuedSettles(r, act, us);
  }

  predicate CalmTrace(r: Rec, ops: seq<UnitOp>)
    requires Settled(r)
    decreases |ops|
  {
    ops == [] ||
    (CalmOp(r, ops[0]) &&
     (SettledQueueSound(r);
      ApplyOpSettles(r, ops[0]);
      ApplyOp(r, ops[0]).Ok? ==> CalmTrace(ApplyOp(r, ops[0]).value, ops[1..])))
  }

  /** A unit that never sees a restart or an EAgain, and never loses the job that is
      about to interrupt its trigger, never aborts the process. */
  lemma {:induction false} CalmRunNeverAborts(r: Rec, ops: seq<UnitOp>)
    requires Calm(r) && CalmTrace(r, ops) && forall op :: op in ops ==> OpWf(op)
    ensures RunOps(r, ops).Ok? && Calm(RunOps(r, ops).value)
    decreases |ops|
  {
    if ops != [] {
      SettledQueueSound(r);
      CalmStep(r, ops[0]);
      CalmRunNeverAborts(ApplyOp(r, ops[0]).value, ops[1..]);
    }
  }

  /** Every EAgain is fatal unless another job interrupts: once the paused unit is
      resumed it is ready, and triggering it aborts whatever the unit answers. */
  lemma AgainIsFatal(r: Rec, act: Option<ActionError>, us: ActiveState, act2: Option<ActionError>, us2: ActiveState)
    requires Settled(r) && QueueSound(r) && QueueDue(r) && AnswersAgain(r.suspends[r.sq[0]], act, us)
    ensures TriggerEntry(r, act, us).Ok?
    ensures ResumeEntry(TriggerEntry(r, act, us).value.0).Ok?
    ensures
      var r2 := ResumeEntry(TriggerEntry(r, act, us).value.0).value;
      r2.ready && QueueSound(r2) && TriggerEntry(r2, act2, us2).Panic?
  {
    TriggerQueuedSettles(r, act, us);
    var r1 := HandedOver(r, Again);
    ResumeEntrySettles(r1);
    var r2 := ResumeEntry(r1).value;
    SettledQueueSound(r2);
    assert RetriggerDue(r2);
    TriggerAgainShape(r2, act2, us2);
  }

  lemma RunOne(r: Rec, ops: seq<UnitOp>)
    requires Settled(r) && ops != [] && forall op :: op in ops ==> OpWf(op)
    requires QueueSound(r) && ApplyOp(r, ops[0]).Ok?
    ensures Settled(ApplyOp(r, ops[0]).value) && RunOps(r, ops) == RunOps(ApplyOp(r, ops[0]).value, ops[1..])
  {
    ApplyOpSettles(r, ops[0]);
  }

  lemma RunTwo(r: Rec, a: UnitOp, b: UnitOp, r1: Rec, r2: Rec, rest: seq<UnitOp>)
    requires Settled(r) && OpWf(a) && OpWf(b) && forall op :: op in rest ==> OpWf(op)
    requires QueueSound(r) && ApplyOp(r, a) == Ok(r1) && QueueSound(r1) && ApplyOp(r1, b) == Ok(r2)
    ensures Settled(r1) && Settled(r2) && RunOps(r, [a, b] + rest) == RunOps(r2, rest)
  {
    ApplyOpSettles(r, a);
    ApplyOpSettles(r1, b);
    var all := [a, b] + rest;
    assert all[1..] == [b] + rest && all[1..][1..] == rest;
    RunOne(r, all);
    RunOne(r1, all[1..]);
  }

  /** One successful phase of a restart, from its hand-over to its finish. */
  lemma RestartStopPhase(r: Rec, us: ActiveState) returns (r1: Rec, r2: Rec)
    requires Settled(r) && QueueSound(r) && QueueDue(r) && !r.retrigger && r.sq[0] == Restart
    ensures ApplyOp(r, OpTrigger(None, us)) == Ok(r1) && QueueSound(r1) && ApplyOp(r1, OpFinish(Done)) == Ok(r2)
    ensures Settled(r2) && StartPhaseDue(r2) && r2.retrigger && !r2.interrupt && !r2.pause
  {
    r1 := StopPhaseBegins(r, us);
    r2 := StopPhaseEnds(r1);
  }

  /** A restart in its stop phase. */
  predicate InStopPhase(r: Rec) {
    && Settled(r) && r.trigger.Some? && r.trigger.value.kind.Restart? && r.trigger.value.runKind.Stop?
    && r.trigger.value.stage.Running? && !r.interrupt && !r.pause
  }

  lemma StopPhaseBegins(r: Rec, us: ActiveState) returns (r1: Rec)
    requires Settled(r) && QueueSound(r) && QueueDue(r) && !r.retrigger && r.sq[0] == Restart
    ensures ApplyOp(r, OpTrigger(None, us)) == Ok(r1) && QueueSound(r1) && InStopPhase(r1)
  {
    TriggerQueuedSettles(r, None, us);
    r1 := HandedOver(r, Launched);
    SettledQueueSound(r1);
  }

  lemma StopPhaseEnds(r1: Rec) returns (r2: Rec)
    requires InStopPhase(r1) && QueueSound(r1)
    ensures ApplyOp(r1, OpFinish(Done)) == Ok(r2)
    ensures Settled(r2) && StartPhaseDue(r2) && r2.retrigger && !r2.interrupt && !r2.pause
  {
    FinishEntrySettles(r1, Done);
    FinishRetriesIff(r1.trigger.value, Done);
    r2 := FinishedRec(r1, Done);
  }

  lemma RestartStartPhase(r: Rec, us: ActiveState) returns (r1: Rec, r2: Rec)
    requires Settled(r) && QueueSound(r) && StartPhaseDue(r) && r.retrigger && !r.interrupt && !r.pause
    ensures ApplyOp(r, OpTrigger(None, us)) == Ok(r1) && QueueSound(r1) && ApplyOp(r1, OpFinish(Done)) == Ok(r2)
    ensures Settled(r2) && RetriggerDue(r2) && !StartPhaseDue(r2)
  {
    TriggerAgainShape(r, None, us);
    r1 := HandedAgain(r, Launched);
    FinishEntrySettles(r1, Done);
    r2 := FinishedRec(r1, Done);
    SettledQueueSound(r1);
  }

  /** A restart whose stop and start phases both succeed is fatal: it is due a third
      time, and triggering it aborts whatever the unit answers. */
  lemma RestartIsFatal(r: Rec, us: ActiveState, act3: Option<ActionError>)
    requires Settled(r) && QueueSound(r) && QueueDue(r) && !r.retrigger && r.sq[0] == Restart
    ensures
      var ops := [OpTrigger(None, us), OpFinish(Done), OpTrigger(None, us), OpFinish(Done)];
      && RunOps(r, ops).Ok? && RunOps(r, ops).value.ready
      && RunOps(r, ops + [OpTrigger(act3, us)]).Panic?
  {
    var a, b, c := OpTrigger(None, us), OpFinish(Done), OpTrigger(act3, us);
    var r1, r2 := RestartStopPhase(r, us);
    SettledQueueSound(r2);
    var r3, r4 := RestartStartPhase(r2, us);
    SettledQueueSound(r4);
    TriggerAgainShape(r4, act3, us);
    assert ApplyOp(r4, c).Panic?;
    RunFour(r, a, b, r1, r2, r3, r4, []);
    RunFour(r, a, b, r1, r2, r3, r4, [c]);
    assert [a, b, a, b] + [] == [a, b, a, b];
  }

  lemma RunFour(r: Rec, a: UnitOp, b: UnitOp, r1: Rec, r2: Rec, r3: Rec, r4: Rec, rest: seq<UnitOp>)
    requires Settled(r) && OpWf(a) && OpWf(b) && forall op :: op in rest ==> OpWf(op)
    requires QueueSound(r) && ApplyOp(r, a) == Ok(r1) && QueueSound(r1) && ApplyOp(r1, b) == Ok(r2)
    requires QueueSound(r2) && ApplyOp(r2, a) == Ok(r3) && QueueSound(r3) && ApplyOp(r3, b) == Ok(r4)
    ensures Settled(r4) && RunOps(r, [a, b, a, b] + rest) == RunOps(r4, rest)
  {
    RunTwo(r, a, b, r1, r2, [a, b] + rest);
    RunTwo(r2, a, b, r3, r4, rest);
    assert [a, b] + ([a, b] + rest) == [a, b, a, b] + rest;
  }
}
