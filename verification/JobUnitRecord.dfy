/** The record a unit keeps of its jobs, and what every operation makes of it
    (process1/src/manager/unit/job/job_unit_entry.rs). `JobUnitEntry` holds the
    object that is updated in place; this module is its specification.

    The queue is kept as the kinds of the queued jobs: in the original it shares
    the suspended jobs themselves, one per kind. */
module JobUnitRecord {
  import opened Outcomes
  import opened JobEntry

  type Suspends = map<JobKind, Job>

  datatype Rec = Rec(
    suspends: Suspends,
    trigger: Option<Job>,
    order: bool,
    sq: seq<JobKind>,
    interrupt: bool,
    retrigger: bool,
    dirty: bool,
    pause: bool,
    ready: bool)

  const NEW_REC := Rec(map[], None, false, [], false, false, false, false, false)

  // ----- conflicts -----

  function KindLen(s: Suspends, k: JobKind): nat {
    if k in s then 1 else 0
  }

  /** Suspended jobs that are neither stop nor nop, counted as the original does. */
  function OthersLen(s: Suspends): int {
    |s| - KindLen(s, Stop) - KindLen(s, Nop)
  }

  predicate IsConflict(s: Suspends) {
    KindLen(s, Stop) > 0 && OthersLen(s) > 0
  }

  predicate IsConflictWith(s: Suspends, o: Suspends) {
    KindLen(s, Stop) + KindLen(o, Stop) > 0 && OthersLen(s) + OthersLen(o) > 0
  }

  predicate IsIrreversible(s: Suspends) {
    exists k :: k in s && s[k].irreversible
  }

  predicate IsReplaceWith(s: Suspends, o: Suspends) {
    if OthersLen(s) > 0 && KindLen(o, Stop) > 0 then !IsIrreversible(s)
    else if KindLen(s, Stop) > 0 && OthersLen(o) > 0 then !IsIrreversible(s)
    else true
  }

  predicate HasOther(s: Suspends) {
    exists k :: k in s && !k.Stop? && !k.Nop?
  }

  lemma RemoveLen(s: set<JobKind>, k: JobKind)
    ensures |s - {k}| == |s| - if k in s then 1 else 0
  {
    if k in s {
      assert s == (s - {k}) + {k};
    } else {
      assert s == s - {k};
    }
  }

  lemma OthersLenCounts(s: Suspends)
    ensures OthersLen(s) == |s.Keys - {Stop} - {Nop}|
  {
    RemoveLen(s.Keys, Stop);
    RemoveLen(s.Keys - {Stop}, Nop);
  }

  /** The counting formula means what its comment says. */
  lemma OthersLenMeaning(s: Suspends)
    ensures OthersLen(s) >= 0
    ensures OthersLen(s) > 0 <==> HasOther(s)
  {
    var rest := s.Keys - {Stop} - {Nop};
    OthersLenCounts(s);
    if rest != {} {
      var k :| k in rest;
      assert HasOther(s);
    }
  }

  /** Beside a stop nothing but a nop is suspended. */
  predicate Consistent(s: Suspends) {
    Stop in s ==> forall k :: k in s ==> k.Stop? || k.Nop?
  }

  lemma ConflictMeaning(s: Suspends)
    ensures IsConflict(s) <==> !Consistent(s)
  {
    OthersLenMeaning(s);
  }

  /** Two self-consistent sides conflict when one stops what the other does. */
  lemma ConflictWithMeaning(s: Suspends, o: Suspends)
    requires Consistent(s) && Consistent(o)
    ensures IsConflictWith(s, o) <==> (Stop in s && HasOther(o)) || (Stop in o && HasOther(s))
  {
    OthersLenMeaning(s);
    OthersLenMeaning(o);
  }

  /** Between two self-consistent sides the two cases of the replacement test are
      all there is: a conflict is let through exactly when nothing is irreversible. */
  lemma ReplaceDecidesConflict(s: Suspends, o: Suspends)
    requires Consistent(s) && Consistent(o)
    ensures IsReplaceWith(s, o) <==> !IsConflictWith(s, o) || !IsIrreversible(s)
  {
    OthersLenMeaning(s);
    OthersLenMeaning(o);
  }

  // ----- the normal form and the queue -----

  function NormalForm(s: Suspends, us: ActiveState): Suspends {
    if Stop in s then s
    else if Restart in s then s - {Start, Reload}
    else if Start in s && Reload in s then
      if ActiveOrReloading(us) then s - {Start} else s - {Reload}
    else s
  }

  function One(s: Suspends, k: JobKind): seq<JobKind> {
    if k in s then [k] else []
  }

  function Mutators(s: Suspends): seq<JobKind> {
    One(s, Restart) + One(s, Start) + One(s, Reload)
  }

  function QueueOf(s: Suspends): seq<JobKind> {
    if Stop in s then [Stop] else Mutators(s) + One(s, Verify) + One(s, Nop)
  }

  /** Self-consistent, and at most one of restart, start and reload. */
  predicate Normal(s: Suspends) {
    Consistent(s) &&
    !(Restart in s && Start in s) && !(Restart in s && Reload in s) && !(Start in s && Reload in s)
  }

  lemma NormalFormMeaning(s: Suspends, us: ActiveState)
    requires Consistent(s)
    ensures Normal(NormalForm(s, us))
    ensures NormalForm(s, us).Keys <= s.Keys
    ensures forall k :: k in NormalForm(s, us) ==> NormalForm(s, us)[k] == s[k]
    ensures NormalForm(s, us) == map[] <==> s == map[]
  {
    var n := NormalForm(s, us);
    if Stop !in s && Restart in s {
      assert Restart in n;
    } else if Stop !in s && Start in s && Reload in s {
      assert (if ActiveOrReloading(us) then Reload else Start) in n;
    } else {
      assert n == s;
    }
  }

  lemma NormalFormFixed(s: Suspends, us: ActiveState)
    requires Normal(s)
    ensures NormalForm(s, us) == s
  {
    if Restart in s && Stop !in s {
      assert s - {Start, Reload} == s;
    }
  }

  lemma QueueMembers(s: Suspends, k: JobKind)
    requires Normal(s) && IsBasic(k)
    ensures k in QueueOf(s) <==> k in s && (Stop in s ==> k.Stop?)
  {
    assert k in One(s, k) <==> k in s;
    assert forall x :: k in One(s, x) ==> x == k;
  }

  lemma QueueFront(s: Suspends)
    requires Normal(s)
    ensures |QueueOf(s)| <= 3 && |Mutators(s)| <= 1
    ensures forall k :: k in s && IsStopping(k) ==> QueueOf(s) != [] && QueueOf(s)[0] == k
    ensures forall k :: k in s && (k.Start? || k.Reload?) && Stop !in s ==> QueueOf(s) != [] && QueueOf(s)[0] == k
    ensures Nop in s && Stop !in s ==> QueueOf(s) != [] && QueueOf(s)[|QueueOf(s)| - 1] == Nop
  {
  }

  lemma QueueOfMeaning(s: Suspends)
    requires Normal(s) && forall k :: k in s ==> IsBasic(k)
    ensures forall k :: k in QueueOf(s) ==> k in s
    ensures s == map[] <==> QueueOf(s) == []
    ensures |QueueOf(s)| <= 3 && |Mutators(s)| <= 1
    ensures forall k :: k in s && !k.Nop? ==> k in QueueOf(s)
    ensures forall k :: k in s && IsStopping(k) ==> QueueOf(s)[0] == k
    ensures forall k :: k in s && (k.Start? || k.Reload?) && Stop !in s ==> QueueOf(s)[0] == k
    ensures Nop in s && Stop !in s ==> QueueOf(s)[|QueueOf(s)| - 1] == Nop
  {
    QueueFront(s);
    forall k | IsBasic(k) ensures k in QueueOf(s) <==> k in s && (Stop in s ==> k.Stop?) {
      QueueMembers(s, k);
    }
    if s != map[] {
      var k :| k in s;
      assert k in QueueOf(s) || Stop in QueueOf(s);
    }
  }

  // ----- readiness -----

  /** Which job is next, leaving a pause aside: Some(true) the first queued one,
      Some(false) the trigger once more, None nothing yet. */
  function CalcNatural(r: Rec): Outcome<Option<bool>> {
    if !r.order then Ok(None)
    else if r.trigger.Some? && r.sq != [] then
      Ok(if r.interrupt then Some(true) else if r.retrigger then Some(false) else None)
    else if r.trigger.Some? then
      if r.interrupt then Panic else Ok(if r.retrigger then Some(false) else None)
    else if r.sq != [] then
      if r.interrupt then Panic else Ok(Some(true))
    else Ok(None)
  }

  function CalcReady(r: Rec): Outcome<Option<bool>> {
    if r.pause then Ok(None) else CalcNatural(r)
  }

  function UpdateReady(r: Rec): Outcome<Rec> {
    var c :- CalcReady(r);
    Ok(r.(ready := c.Some?))
  }

  // ----- the operations -----

  /** May `j` be inserted beside the trigger? */
  predicate CanInsert(trigger: Option<Job>, j: Job) {
    IsBasic(j.kind) && j.stage.Init? && !(trigger.Some? && trigger.value.id == j.id)
  }

  function InsertSuspend(r: Rec, j: Job, operate: bool): Outcome<Rec> {
    if !CanInsert(r.trigger, j) || j.kind in r.suspends then Panic
    else
      Ok(r.(suspends := r.suspends[j.kind := if operate then j.(stage := Wait) else j],
            order := false, dirty := true, ready := false))
  }

  /** The job leaves the table, so only the record is returned. */
  function RemoveSuspend(r: Rec, k: JobKind, result: JobResult): Outcome<Rec> {
    if k in r.suspends && !CanFinish(r.suspends[k]) then Panic
    else Ok(r.(suspends := r.suspends - {k}, order := false, dirty := true, ready := false))
  }

  function FlushSuspends(r: Rec): Outcome<Rec> {
    if exists k :: k in r.suspends && !CanFinish(r.suspends[k]) then Panic
    else Ok(r.(suspends := map[], order := false, dirty := true, ready := false))
  }

  function Union(s: Suspends, o: Suspends): Suspends {
    map k | k in s.Keys + o.Keys ::
      if k in s && k in o then MergeAttr(s[k], o[k])
      else if k in s then s[k]
      else o[k].(stage := Wait)
  }

  /** The staged jobs join what a conflict has left. */
  function MergeInto(r: Rec, o: Suspends): Outcome<Rec> {
    if exists k :: k in o && k !in r.suspends && !CanInsert(r.trigger, o[k]) then Panic
    else if o.Keys <= r.suspends.Keys then Ok(r.(suspends := Union(r.suspends, o)))
    else Ok(r.(suspends := Union(r.suspends, o), order := false, dirty := true, ready := false))
  }

  function MergeSuspends(r: Rec, o: Suspends): Outcome<Rec> {
    var r1 :- if IsConflictWith(r.suspends, o) then FlushSuspends(r) else Ok(r);
    MergeInto(r1, o)
  }

  function Reshuffle(r: Rec, us: ActiveState): Outcome<Rec> {
    if IsConflict(r.suspends) then Panic
    else
      var s := if r.order then r.suspends else NormalForm(r.suspends, us);
      var q := if r.order then r.sq else QueueOf(s);
      if !r.order && Stop !in s && (|Mutators(s)| > 1 || |q| > 3) then Panic
      else if exists k :: k in r.suspends && k !in s && !CanFinish(r.suspends[k]) then Panic
      else
        var i := if r.trigger.Some? && q != [] then IsStopping(q[0]) else r.interrupt;
        UpdateReady(r.(suspends := s, sq := q, order := true, interrupt := i))
  }

  function PauseRec(r: Rec): Outcome<Rec> {
    if !r.order then Panic else UpdateReady(r.(dirty := true, pause := true))
  }

  function ResumeRec(r: Rec): Outcome<Rec> {
    if !r.order then Panic else UpdateReady(r.(dirty := true, pause := false))
  }

  function RetriggerTrigger(r: Rec): Outcome<Rec> {
    if r.trigger.None? || !r.order then Panic
    else UpdateReady(r.(retrigger := true, dirty := true))
  }

  /** In an ordered record the queued kinds are suspended. */
  predicate QueueSound(r: Rec) {
    r.order ==> forall k :: k in r.sq ==> k in r.suspends
  }

  /** The record with its next trigger in place, and the trigger it interrupted. */
  function NextTrigger(r: Rec): (res: Outcome<(Rec, Option<Job>)>)
    requires QueueSound(r)
    ensures res.Ok? ==> res.value.0.trigger.Some? && res.value.0.order
  {
    var c :- CalcReady(r);
    if c == Some(true) then
      var merged := if r.interrupt then r.trigger else None;
      var r1 :- UpdateReady(r.(
        interrupt := false,
        trigger := Some(r.suspends[r.sq[0]]),
        sq := r.sq[1..],
        suspends := r.suspends - {r.sq[0]},
        dirty := true));
      Ok((r1, merged))
    else if c == Some(false) then
      if r.interrupt then Panic
      else
        var r1 :- UpdateReady(r.(retrigger := false, dirty := true));
        Ok((r1, None))
    else Panic
  }

  /** The trigger is handed to the unit; `act` and `us` are its answer. */
  function HandTrigger(r: Rec, act: Option<ActionError>, us: ActiveState): Outcome<(Rec, RunOutcome)>
    requires r.trigger.Some?
  {
    var (cur, out) :- RunJob(r.trigger.value, act, us);
    var r1 := r.(trigger := Some(cur));
    var r2 :- if out.Again? then PauseRec(r1) else Ok(r1);
    var r3 :- if out.Again? then RetriggerTrigger(r2) else Ok(r2);
    Ok((r3, out))
  }

  /** The next trigger is handed to the unit. */
  function DoTrigger(r: Rec, act: Option<ActionError>, us: ActiveState): Outcome<(Rec, RunOutcome, Option<Job>)>
    requires QueueSound(r)
  {
    var (r1, merged) :- NextTrigger(r);
    var (r2, out) :- HandTrigger(r1, act, us);
    if merged.Some? && !CanFinish(merged.value) then Panic
    else Ok((r2, out, merged))
  }

  function FinishTrigger(r: Rec, result: JobResult): Outcome<(Rec, Option<Job>)> {
    if r.trigger.None? then Panic
    else
      var (j, retry) :- FinishJob(r.trigger.value, result);
      var r1 :- if retry then RetriggerTrigger(r.(trigger := Some(j)))
                else Ok(r.(interrupt := false, trigger := None));
      var r2 :- UpdateReady(r1.(dirty := true));
      if !r2.order then Panic
      else Ok((r2, if retry then None else Some(j)))
  }

  // ----- ordering against another unit -----

  function NextJob(r: Rec): Outcome<Job>
    requires QueueSound(r)
  {
    var c :- CalcReady(r);
    if c == Some(true) then Ok(r.suspends[r.sq[0]])
    else if c == Some(false) then Ok(r.trigger.value)
    else Panic
  }

  /** Some job of `o`, suspended or running, has to go before `j`. */
  predicate Blocks(o: Rec, j: Job, atom: OrderAtom) {
    (exists k :: k in o.suspends && IsOrderWith(j, o.suspends[k], atom) > 0) ||
    (o.trigger.Some? && IsOrderWith(j, o.trigger.value, atom) > 0)
  }

  function NextTriggerOrderWith(r: Rec, o: Rec, atom: OrderAtom): Outcome<bool>
    requires QueueSound(r)
  {
    if !r.ready || !o.order then Panic
    else
      var j :- NextJob(r);
      Ok(j.ignoreOrder || j.kind.Nop? || !Blocks(o, j, atom))
  }

  // ----- the per-unit part of the table operations, from one clean record to the next -----

  datatype UnitOp =
    | OpIsolate(us: ActiveState)
    | OpMerge(o: Suspends, us: ActiveState)
    | OpRemove(k1: JobKind, k2: Option<JobKind>, result: JobResult, us: ActiveState)
    | OpPause
    | OpResume
    | OpTrigger(act: Option<ActionError>, us: ActiveState)
    | OpFinish(result: JobResult)

  function Clean(r: Rec): Rec {
    r.(dirty := false)
  }

  function ReshuffleDirty(r: Rec, us: ActiveState): Outcome<Rec> {
    if r.dirty then
      var r1 :- Reshuffle(r, us);
      Ok(Clean(r1))
    else Ok(r)
  }

  function IsolateEntry(r: Rec, us: ActiveState): Outcome<Rec> {
    var r1 :- FlushSuspends(r);
    ReshuffleDirty(r1, us)
  }

  function MergeEntry(r: Rec, o: Suspends, us: ActiveState): Outcome<Rec> {
    var r1 :- MergeSuspends(r, o);
    ReshuffleDirty(r1, us)
  }

  function RemoveEntry(r: Rec, k1: JobKind, k2: Option<JobKind>, result: JobResult, us: ActiveState): Outcome<Rec> {
    var r1 :- RemoveSuspend(r, k1, result);
    var r2 :- if k2.Some? then RemoveSuspend(r1, k2.value, result) else Ok(r1);
    ReshuffleDirty(r2, us)
  }

  function PauseEntry(r: Rec): Outcome<Rec> {
    var r1 :- PauseRec(r);
    if r1.ready then Panic else Ok(Clean(r1))
  }

  function ResumeEntry(r: Rec): Outcome<Rec> {
    if !r.pause then Ok(r)
    else
      var r1 :- ResumeRec(r);
      Ok(Clean(r1))
  }

  function TriggerEntry(r: Rec, act: Option<ActionError>, us: ActiveState): Outcome<(Rec, RunOutcome, Option<Job>)>
    requires QueueSound(r)
  {
    var (r1, out, merged) :- DoTrigger(r, act, us);
    if r1.ready then Panic else Ok((Clean(r1), out, merged))
  }

  function FinishEntry(r: Rec, result: JobResult): Outcome<(Rec, Option<Job>)> {
    var (r1, del) :- FinishTrigger(r, result);
    Ok((Clean(r1), del))
  }

  function ApplyOp(r: Rec, op: UnitOp): Outcome<Rec>
    requires QueueSound(r)
  {
    match op
    case OpIsolate(us) => IsolateEntry(r, us)
    case OpMerge(o, us) => MergeEntry(r, o, us)
    case OpRemove(k1, k2, result, us) => RemoveEntry(r, k1, k2, result, us)
    case OpPause => PauseEntry(r)
    case OpResume => ResumeEntry(r)
    case OpTrigger(act, us) =>
      var t :- TriggerEntry(r, act, us);
      Ok(t.0)
    case OpFinish(result) =>
      var f :- FinishEntry(r, result);
      Ok(f.0)
  }
}
