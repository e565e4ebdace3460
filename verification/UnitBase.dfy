/** Units, their relations and the atoms relations are made of
    (process1/src/manager/unit/unit_base/ub_relation.rs and ub_relation_atom.rs). */
module UnitBase {
  type UnitId = nat

  datatype Relation =
    | Requires | Requisite | Wants | BindsTo | PartOf | UpHolds
    | RequiresBy | RequisiteOf | WantsBy | BoundBy | ConsistsOf | UpHeldBy
    | Conflicts | ConflictedBy
    | BeforeRel | AfterRel
    | OnSuccess | OnSuccessOf | OnFailure | OnFailureOf
    | Triggers | TriggeredBy
    | PropagatesReloadTo | ReloadPropagatedFrom
    | PropagatesStopTo | StopPropagatedFrom
    | JoinsNameSpaceOf
    | References | ReferencedBy
    | InSlice | SliceOf

  function Inverse(r: Relation): Relation {
    match r
    case Requires => RequiresBy
    case Requisite => RequisiteOf
    case Wants => WantsBy
    case BindsTo => BoundBy
    case PartOf => ConsistsOf
    case UpHolds => UpHeldBy
    case RequiresBy => Requires
    case RequisiteOf => Requisite
    case WantsBy => Wants
    case BoundBy => BindsTo
    case ConsistsOf => PartOf
    case UpHeldBy => UpHolds
    case Conflicts => ConflictedBy
    case ConflictedBy => Conflicts
    case BeforeRel => AfterRel
    case AfterRel => BeforeRel
    case OnSuccess => OnSuccessOf
    case OnSuccessOf => OnSuccess
    case OnFailure => OnFailureOf
    case OnFailureOf => OnFailure
    case Triggers => TriggeredBy
    case TriggeredBy => Triggers
    case PropagatesReloadTo => ReloadPropagatedFrom
    case ReloadPropagatedFrom => PropagatesReloadTo
    case PropagatesStopTo => StopPropagatedFrom
    case StopPropagatedFrom => PropagatesStopTo
    case JoinsNameSpaceOf => JoinsNameSpaceOf
    case References => ReferencedBy
    case ReferencedBy => References
    case InSlice => SliceOf
    case SliceOf => InSlice
  }

  /** The atoms the job engine asks the dependency store for. */
  datatype Atom =
    | PullInStart | PullInStartIgnored | PullInVerify | PullInStop | PullInStopIgnored
    | PropagateStartFailure | PropagateStopFailure
    | PropagateStop | PropagateRestart | PropagateReload
    | AtomBefore | AtomAfter | AtomTriggeredBy

  /** The relations an atom is spread over, in the order they are visited. */
  function RelationsOf(a: Atom): seq<Relation> {
    match a
    case PullInStart => [Requires, BindsTo]
    case PullInStartIgnored => [Wants, UpHolds]
    case PullInVerify => [Requisite]
    case PullInStop => [Conflicts]
    case PullInStopIgnored => [ConflictedBy]
    case PropagateStartFailure => [RequiresBy, RequisiteOf, BoundBy]
    case PropagateStopFailure => [ConflictedBy]
    case PropagateStop => [RequiresBy, RequisiteOf, BoundBy, ConsistsOf, PropagatesStopTo]
    case PropagateRestart => [RequiresBy, RequisiteOf, BoundBy, ConsistsOf]
    case PropagateReload => [PropagatesReloadTo]
    case AtomBefore => [BeforeRel]
    case AtomAfter => [AfterRel]
    case AtomTriggeredBy => [TriggeredBy]
  }

  /** What the store answers for a unit and an atom, in the order it answers. */
  type Db = map<(UnitId, Atom), seq<UnitId>>

  function Gets(db: Db, u: UnitId, a: Atom): seq<UnitId> {
    if (u, a) in db then db[(u, a)] else []
  }

  /** Every ordering edge is seen from both its ends. */
  ghost predicate OrderMirrored(db: Db) {
    forall u: UnitId, v: UnitId :: v in Gets(db, u, AtomAfter) <==> u in Gets(db, v, AtomBefore)
  }
}
