/** One job: its kind, its stage, the run-kind it is currently working on
    (process1/src/manager/unit/job/job_entry.rs). */
module JobEntry {
  import opened Outcomes
  import UnitBase

  type UnitId = UnitBase.UnitId

  datatype JobKind =
    | Start | Stop | Reload | Restart          // may change the state of the unit
    | Verify | Nop                             // never change it
    | TryReload | TryRestart | ReloadOrStart   // compound, mapped away before staging

  datatype JobResult =
    | Done | Cancelled | TimeOut | Failed | Dependency | Skipped
    | Invalid | Assert | UnSupported | Collected | Once | Merged

  datatype JobStage = Init | Wait | Running | End(result: JobResult)

  datatype JobMode =
    | Fail | Replace | ReplaceIrreversible | Isolate | Flush
    | IgnoreDependencies | IgnoreRequirements | Trigger

  datatype ActiveState =
    | UnitActive | UnitReloading | UnitInActive | UnitFailed
    | UnitActivating | UnitDeActivating | UnitMaintenance

  datatype ActionError =
    | EAgain | EAlready | EComm | EBadR | ENoExec | EProto | EOpNotSupp
    | ENolink | EStale | EFailed | EInval | EBusy | ENoent

  /** The two directions of an ordering edge. */
  datatype OrderAtom = Before | After

  datatype Job = Job(
    id: nat,
    unit: UnitId,
    kind: JobKind,
    ignoreOrder: bool,
    irreversible: bool,
    runKind: JobKind,
    stage: JobStage)

  /** What handing a job to its unit came to. */
  datatype RunOutcome = Launched | Again | Finished(result: JobResult)

  predicate IsBasic(k: JobKind) {
    !k.TryReload? && !k.TryRestart? && !k.ReloadOrStart?
  }

  predicate IsStopping(k: JobKind) {
    k.Stop? || k.Restart?
  }

  predicate ActiveOrReloading(us: ActiveState) {
    us.UnitActive? || us.UnitReloading?
  }

  // ----- the pure tables of the module -----

  function RunKindNew(k: JobKind): JobKind {
    if k.Restart? then Stop else k
  }

  function RunKindMap(k: JobKind, last: JobKind): JobKind {
    if k.Restart? && last.Stop? then Start else k
  }

  function MergeUnit(k: JobKind, us: ActiveState): JobKind {
    match k
    case TryReload => if ActiveOrReloading(us) then Reload else Nop
    case TryRestart => if ActiveOrReloading(us) then Restart else Nop
    case ReloadOrStart => if ActiveOrReloading(us) then Reload else Start
    case _ => k
  }

  function ErrToOutcome(e: ActionError): RunOutcome {
    match e
    case EAgain => Again
    case EAlready | EComm => Finished(Done)
    case EBadR => Finished(Skipped)
    case ENoExec => Finished(Invalid)
    case EProto => Finished(Assert)
    case EOpNotSupp => Finished(UnSupported)
    case ENolink => Finished(Dependency)
    case EStale => Finished(Once)
    case EFailed | EInval | EBusy | ENoent => Finished(Failed)
  }

  /** `act` is the answer of the unit's start, stop or reload action. */
  function TriggerUnit(runKind: JobKind, act: Option<ActionError>, us: ActiveState): Outcome<RunOutcome> {
    match runKind
    case Start | Stop | Reload => Ok(if act.None? then Launched else ErrToOutcome(act.value))
    case Verify =>
      if ActiveOrReloading(us) then Ok(ErrToOutcome(EAlready))
      else if us.UnitActivating? then Ok(ErrToOutcome(EAgain))
      else Ok(ErrToOutcome(EBadR))
    case Nop => Ok(ErrToOutcome(EAlready))
    case _ => Panic
  }

  /** How a hand-over ends at once: which answers of a start, stop or reload mean what; a verify
      by the state of its unit alone; and a nop always well. */
  predicate AnswerMeans(phase: JobKind, act: Option<ActionError>, us: ActiveState, out: RunOutcome) {
    match phase
    case Start | Stop | Reload =>
      && (out.Launched? <==> act.None?)
      && (out.Again? <==> act == Some(EAgain))
      && (out == Finished(Done) <==> act == Some(EAlready) || act == Some(EComm))
      && (out == Finished(Failed) <==> act == Some(EFailed) || act == Some(EInval) || act == Some(EBusy) || act == Some(ENoent))
      && (out == Finished(Skipped) <==> act == Some(EBadR)) && (out == Finished(Invalid) <==> act == Some(ENoExec))
      && (out == Finished(Assert) <==> act == Some(EProto)) && (out == Finished(UnSupported) <==> act == Some(EOpNotSupp))
      && (out == Finished(Dependency) <==> act == Some(ENolink)) && (out == Finished(Once) <==> act == Some(EStale))
    case Verify =>
      && (out == Finished(Done) <==> us.UnitActive? || us.UnitReloading?)
      && (out.Again? <==> us.UnitActivating?)
      && (out == Finished(Skipped) <==> us.UnitInActive? || us.UnitFailed? || us.UnitDeActivating? || us.UnitMaintenance?)
    case Nop => out == Finished(Done)
    case _ => false
  }

  lemma AnswerMeaning(phase: JobKind, act: Option<ActionError>, us: ActiveState)
    ensures TriggerUnit(phase, act, us).Ok? <==> phase.Start? || phase.Stop? || phase.Reload? || phase.Verify? || phase.Nop?
    ensures TriggerUnit(phase, act, us).Ok? ==> AnswerMeans(phase, act, us, TriggerUnit(phase, act, us).value)
  {
  }

  /** The verdict on a running job when its unit moves to `ns`: the suggested
      result, if any, and whether the move was the job's own doing. */
  function ProcessUnit(runKind: JobKind, ns: ActiveState, reloadFailure: bool): Outcome<(Option<JobResult>, bool)> {
    match runKind
    case Start => (
      match ns
      case UnitActive => Ok((Some(Done), true))
      case UnitActivating => Ok((None, true))
      case UnitInActive => Ok((Some(Done), false))
      case UnitFailed => Ok((Some(Failed), false))
      case _ => Ok((None, false)))
    case Stop => (
      match ns
      case UnitInActive | UnitFailed => Ok((Some(Done), true))
      case UnitDeActivating => Ok((None, true))
      case _ => Ok((Some(Failed), false)))
    case Reload => (
      match ns
      case UnitActive => Ok((Some(if reloadFailure then Failed else Done), true))
      case UnitReloading => Ok((None, true))
      case UnitInActive => Ok((Some(Done), false))
      case UnitFailed => Ok((Some(Failed), false))
      case _ => Ok((None, false)))
    case _ => Panic
  }

  /** Positive: `a` has to wait for `b`; negative: `a` goes first; zero: independent. */
  function OrderCompare(a: JobKind, b: JobKind, atom: OrderAtom): int
    decreases atom.After?
  {
    if a.Nop? || b.Nop? then 0
    else if atom.After? then -OrderCompare(b, a, Before)
    else if IsStopping(b) then 1
    else -1
  }

  function IsOrderWith(a: Job, b: Job, atom: OrderAtom): int {
    if a.ignoreOrder || b.ignoreOrder then 0 else OrderCompare(a.kind, b.kind, atom)
  }

  /** On one ordering edge exactly one side waits for the other, unless one side
      is a nop: the later unit waits when it does not stop, the earlier unit
      waits when the later one stops. */
  lemma OneSideWaits(a: JobKind, b: JobKind)
    requires !a.Nop? && !b.Nop?
    ensures OrderCompare(a, b, Before) > 0 <==> !(OrderCompare(b, a, After) > 0)
    ensures OrderCompare(a, b, Before) > 0 <==> IsStopping(b)
  {
    assert OrderCompare(b, a, After) == -OrderCompare(a, b, Before);
  }

  // ----- the life of one job -----

  function NewJob(id: nat, unit: UnitId, kind: JobKind, mode: JobMode): Job {
    Job(id, unit, kind, mode.IgnoreDependencies? || kind.Nop?, mode.ReplaceIrreversible?, RunKindNew(kind), Init)
  }

  function MergeAttr(j: Job, other: Job): Job {
    j.(ignoreOrder := j.ignoreOrder || other.ignoreOrder, irreversible := j.irreversible || other.irreversible)
  }

  function RunJob(j: Job, act: Option<ActionError>, us: ActiveState): Outcome<(Job, RunOutcome)> {
    if !j.stage.Wait? then Panic
    else
      var out :- TriggerUnit(j.runKind, act, us);
      Ok((j.(stage := Running), out))
  }

  predicate CanFinish(j: Job) {
    j.stage.Wait? || j.stage.Running?
  }

  /** The new job and whether it has to be triggered again. */
  function FinishJob(j: Job, result: JobResult): Outcome<(Job, bool)> {
    if !CanFinish(j) then Panic
    else if result.Done? && RunKindMap(j.kind, j.runKind) != j.runKind then
      Ok((j.(runKind := RunKindMap(j.kind, j.runKind), stage := Wait), true))
    else
      Ok((j.(stage := End(result)), false))
  }

  /** The run-kinds a job can be working on. */
  predicate WfJob(j: Job) {
    IsBasic(j.kind) &&
    if j.kind.Restart? then j.runKind.Stop? || j.runKind.Start? || j.runKind.Restart?
    else j.runKind == j.kind
  }

  /** Only a restart is ever asked for another phase, and it is asked after its
      stop phase and again after its start phase. */
  lemma FinishRetriesIff(j: Job, result: JobResult)
    requires WfJob(j) && CanFinish(j)
    ensures FinishJob(j, result).Ok?
    ensures FinishJob(j, result).value.1 <==> result.Done? && j.kind.Restart? && !j.runKind.Restart?
    ensures WfJob(FinishJob(j, result).value.0)
    ensures !FinishJob(j, result).value.1 ==> FinishJob(j, result).value.0.stage == End(result)
  {
    if j.kind.Restart? {
      assert RunKindMap(j.kind, j.runKind) == if j.runKind.Stop? then Start else Restart;
    }
  }

  datatype JobEvent = Hand(act: Option<ActionError>, us: ActiveState) | Close(result: JobResult)

  function JobStep(j: Job, e: JobEvent): Outcome<Job> {
    match e
    case Hand(act, us) =>
      var r :- RunJob(j, act, us);
      Ok(r.0)
    case Close(result) =>
      var r :- FinishJob(j, result);
      Ok(r.0)
  }

  function JobRun(j: Job, es: seq<JobEvent>): Outcome<Job>
    decreases |es|
  {
    if es == [] then Ok(j)
    else
      var j' :- JobStep(j, es[0]);
      JobRun(j', es[1..])
  }

  /** Every close answers a hand-over directly, with success. */
  predicate Successful(es: seq<JobEvent>)
    decreases |es|
  {
    es == [] ||
    (es[0].Hand? && (|es| == 1 || (es[1] == Close(Done) && Successful(es[2..]))))
  }

  function PhasesLeft(j: Job): nat {
    if !j.kind.Restart? then (if j.stage.Running? || j.stage.End? then 0 else 1)
    else (if j.runKind.Stop? then 3 else if j.runKind.Start? then 2 else 1) - (if j.stage.Running? then 1 else 0)
  }

  /** A restart that always succeeds never ends: whatever is thrown at it, it is
      left waiting, running, or it has aborted the process. */
  lemma {:induction false} RestartNeverEnds(j: Job, es: seq<JobEvent>)
    requires WfJob(j) && j.kind.Restart? && j.stage.Wait?
    requires Successful(es)
    ensures JobRun(j, es).Ok? ==> !JobRun(j, es).value.stage.End?
    ensures |es| >= 2 * PhasesLeft(j) - 1 ==> JobRun(j, es).Panic?
    decreases |es|
  {
    if es == [] {
    } else {
      var h := JobStep(j, es[0]);
      if h.Ok? && |es| > 1 {
        assert JobRun(j, es) == JobRun(h.value, es[1..]);
        FinishRetriesIff(h.value, Done);
        var c := JobStep(h.value, es[1]).value;
        assert es[1..][1..] == es[2..];
        assert JobRun(h.value, es[1..]) == JobRun(c, es[2..]);
        RestartNeverEnds(c, es[2..]);
      } else if h.Ok? {
        assert JobRun(j, es) == JobRun(h.value, es[1..]) && es[1..] == [];
      }
    }
  }

  predicate Completes(j: Job, es: seq<JobEvent>) {
    Successful(es) && JobRun(j, es).Ok? && JobRun(j, es).value.stage == End(Done)
  }

  /** The full statement about completion: a job that is handed over and always
      succeeds reaches its end exactly when it is not a restart. */
  lemma SuccessCompletesIff(j: Job)
    requires WfJob(j) && j.stage.Wait?
    ensures (exists es :: Completes(j, es)) <==> !j.kind.Restart?
  {
    if j.kind.Restart? {
      forall es ensures !Completes(j, es) {
        if Successful(es) {
          RestartNeverEnds(j, es);
        }
      }
    } else {
      var es := [Hand(None, UnitActive), Close(Done)];
      assert es[1..] == [Close(Done)] && es[2..] == [] && es[1..][1..] == [];
      var h := JobStep(j, es[0]).value;
      FinishRetriesIff(h, Done);
      var c := JobStep(h, Close(Done)).value;
      assert c.stage == End(Done);
      assert JobRun(c, []) == Ok(c);
      assert JobRun(h, es[1..]) == JobRun(c, es[1..][1..]);
      assert JobRun(j, es) == JobRun(h, es[1..]);
      assert Successful(es[2..]);
      assert Completes(j, es);
    }
  }

  /** A job the unit answered with EAgain stays Running, so it cannot be handed
      over a second time; it can only be finished. */
  lemma AgainCannotBeRerun(j: Job, act: Option<ActionError>, us: ActiveState)
    requires RunJob(j, act, us).Ok? && RunJob(j, act, us).value.1.Again?
    ensures forall act2, us2 :: RunJob(RunJob(j, act, us).value.0, act2, us2).Panic?
    ensures CanFinish(RunJob(j, act, us).value.0)
  {
    assert RunJob(j, act, us).value.0.stage.Running?;
  }

  /** The job as the original holds it: a shared cell changed in place. */
  class JobCell {
    const id: nat
    const unit: UnitId
    const kind: JobKind
    var ignoreOrder: bool
    var irreversible: bool
    var runKind: JobKind
    var stage: JobStage

    function Value(): Job
      reads this
    {
      Job(id, unit, kind, ignoreOrder, irreversible, runKind, stage)
    }

    constructor (id: nat, unit: UnitId, kind: JobKind, mode: JobMode)
      ensures Value() == NewJob(id, unit, kind, mode)
    {
      this.id, this.unit, this.kind := id, unit, kind;
      runKind, stage := RunKindNew(kind), Init;
      ignoreOrder, irreversible := false, false;
      new;
      InitAttr(mode);
    }

    method InitAttr(mode: JobMode)
      modifies this`ignoreOrder, this`irreversible
      ensures irreversible == (old(irreversible) || mode.ReplaceIrreversible?)
      ensures ignoreOrder == (old(ignoreOrder) || mode.IgnoreDependencies? || kind.Nop?)
    {
      if mode == ReplaceIrreversible {
        irreversible := true;
      }
      if mode == IgnoreDependencies || kind == Nop {
        ignoreOrder := true;
      }
    }

    method Run(act: Option<ActionError>, us: ActiveState) returns (panicked: bool, out: RunOutcome)
      modifies this`stage
      ensures panicked <==> RunJob(old(Value()), act, us).Panic?
      ensures !panicked ==> RunJob(old(Value()), act, us) == Ok((Value(), out))
      ensures !panicked ==> AnswerMeans(runKind, act, us, out)
    {
      AnswerMeaning(runKind, act, us);
      panicked, out := false, Launched;
      if !stage.Wait? {
        panicked := true;
        return;
      }
      stage := Running;
      var r := TriggerUnit(runKind, act, us);
      if r.Panic? {
        panicked := true;
      } else {
        out := r.value;
      }
    }

    method Finish(result: JobResult) returns (panicked: bool, retry: bool)
      modifies this`stage, this`runKind
      ensures panicked <==> FinishJob(old(Value()), result).Panic?
      ensures !panicked ==> FinishJob(old(Value()), result) == Ok((Value(), retry))
    {
      panicked, retry := false, false;
      if !stage.Wait? && !stage.Running? {
        panicked := true;
        return;
      }
      stage := End(result);
      if result == Done {
        retry := UpdateRunKind();
      }
      if retry {
        stage := Wait;
      }
    }

    method UpdateRunKind() returns (more: bool)
      modifies this`runKind
      ensures runKind == RunKindMap(kind, old(runKind))
      ensures more <==> runKind != old(runKind)
    {
      var last := runKind;
      runKind := RunKindMap(kind, last);
      more := last != runKind;
    }
  }
}
