/** The dependency store: every edge is kept at both its ends
    (process1/src/manager/unit/unit_datastore/unit_dep.rs). */
module UnitDep {
  import opened Outcomes
  import opened UnitBase

  type U16 = x: nat | x < 0x1_0000

  datatype Mask = Mask(source: U16, dest: U16)

  type Dests = map<UnitId, Mask>
  type Table = map<UnitId, map<Relation, Dests>>

  /** The edge of relation `r` from `s` to `d`, if it is stored. */
  function Look(t: Table, s: UnitId, r: Relation, d: UnitId): Option<Mask> {
    if s in t && r in t[s] && d in t[s][r] then Some(t[s][r][d]) else None
  }

  /** No unit and no relation is kept without an edge. */
  ghost predicate NoHusks(t: Table) {
    (forall s :: s in t ==> t[s] != map[]) && (forall s, r :: s in t && r in t[s] ==> t[s][r] != map[])
  }

  function Flip(m: Mask): Mask {
    Mask(m.dest, m.source)
  }

  function FlipIf(m: Option<Mask>): Option<Mask> {
    if m.Some? then Some(Flip(m.value)) else None
  }

  /** Every edge is seen from its other end, with the inverse relation and the flipped
      mask, and no edge leads from a unit to itself. */
  ghost predicate Mirrored(t: Table) {
    (forall s, r, d {:trigger Look(t, d, Inverse(r), s)} :: Look(t, d, Inverse(r), s) == FlipIf(Look(t, s, r, d))) &&
    (forall s, r :: Look(t, s, r, s) == None)
  }

  lemma InverseTwice(r: Relation)
    ensures Inverse(Inverse(r)) == r
  {
    match r {
      case Requires =>
      case Requisite =>
      case Wants =>
      case BindsTo =>
      case PartOf =>
      case UpHolds =>
      case RequiresBy =>
      case RequisiteOf =>
      case WantsBy =>
      case BoundBy =>
      case ConsistsOf =>
      case UpHeldBy =>
      case Conflicts =>
      case ConflictedBy =>
      case BeforeRel =>
      case AfterRel =>
      case OnSuccess =>
      case OnSuccessOf =>
      case OnFailure =>
      case OnFailureOf =>
      case Triggers =>
      case TriggeredBy =>
      case PropagatesReloadTo =>
      case ReloadPropagatedFrom =>
      case PropagatesStopTo =>
      case StopPropagatedFrom =>
      case JoinsNameSpaceOf =>
      case References =>
      case ReferencedBy =>
      case InSlice =>
      case SliceOf =>
    }
  }

  /** The two names an edge has, seen from its two ends. */
  predicate Opposite(r: Relation, q: Relation) {
    (r.Requires? && q.RequiresBy?) || (r.Requisite? && q.RequisiteOf?) || (r.Wants? && q.WantsBy?) ||
    (r.BindsTo? && q.BoundBy?) || (r.PartOf? && q.ConsistsOf?) || (r.UpHolds? && q.UpHeldBy?) ||
    (r.Conflicts? && q.ConflictedBy?) || (r.BeforeRel? && q.AfterRel?) ||
    (r.OnSuccess? && q.OnSuccessOf?) || (r.OnFailure? && q.OnFailureOf?) || (r.Triggers? && q.TriggeredBy?) ||
    (r.PropagatesReloadTo? && q.ReloadPropagatedFrom?) || (r.PropagatesStopTo? && q.StopPropagatedFrom?) ||
    (r.References? && q.ReferencedBy?) || (r.InSlice? && q.SliceOf?) || (r.JoinsNameSpaceOf? && q.JoinsNameSpaceOf?)
  }

  /** The inverse is the other of the two names. */
  lemma InverseMeaning(r: Relation, q: Relation)
    ensures Inverse(r) == q <==> Opposite(r, q) || Opposite(q, r)
  {
    if Opposite(r, q) {
      OppositeInverse(r, q);
    } else if Opposite(q, r) {
      OppositeInverse(q, r);
    }
  }

  lemma OppositeInverse(r: Relation, q: Relation)
    requires Opposite(r, q)
    ensures Inverse(r) == q && Inverse(q) == r
  {
  }

  // ----- the operations on values -----

  function InsertOneWay(t: Table, s: UnitId, r: Relation, d: UnitId, m: Mask): Table {
    var sv: map<Relation, Dests> := if s in t then t[s] else map[];
    var dv: Dests := if r in sv then sv[r] else map[];
    t[s := sv[r := dv[d := m]]]
  }

  /** The emptiness test is inverted: an entry that still has something goes. */
  function RemoveOneWay(t: Table, s: UnitId, r: Relation, d: UnitId): Table {
    if s !in t then t
    else
      var sv: map<Relation, Dests> := if r in t[s] then t[s][r := t[s][r] - {d}] else t[s];
      if sv != map[] then t - {s} else t[s := sv]
  }

  function InsertBothWays(t: Table, s: UnitId, r: Relation, d: UnitId, mask: U16): Table {
    InsertOneWay(InsertOneWay(t, s, r, d, Mask(mask, 0)), d, Inverse(r), s, Mask(0, mask))
  }

  function Inserted(t: Table, s: UnitId, r: Relation, d: UnitId, reference: bool, mask: U16): Table {
    if s == d then t
    else
      var t1 := InsertBothWays(t, s, r, d, mask);
      if reference then InsertBothWays(t1, s, References, d, mask) else t1
  }

  function Removed(t: Table, s: UnitId, r: Relation, d: UnitId): Table {
    RemoveOneWay(RemoveOneWay(t, s, r, d), d, Inverse(r), s)
  }

  // ----- insertion -----

  /** Is (x, q, y) the edge (s, r, d) or its mirror image? */
  predicate IsEdge(s: UnitId, r: Relation, d: UnitId, x: UnitId, q: Relation, y: UnitId) {
    (x == s && q == r && y == d) || (x == d && q == Inverse(r) && y == s)
  }

  lemma InsertOneMeaning(t: Table, s: UnitId, r: Relation, d: UnitId, m: Mask, x: UnitId, q: Relation, y: UnitId)
    ensures Look(InsertOneWay(t, s, r, d, m), x, q, y) == if x == s && q == r && y == d then Some(m) else Look(t, x, q, y)
  {
  }

  lemma InsertBothMeaning(t: Table, s: UnitId, r: Relation, d: UnitId, mask: U16, x: UnitId, q: Relation, y: UnitId)
    requires s != d
    ensures Look(InsertBothWays(t, s, r, d, mask), x, q, y) ==
      if IsEdge(s, r, d, x, q, y) then Some(if x == s then Mask(mask, 0) else Mask(0, mask)) else Look(t, x, q, y)
  {
    InsertOneMeaning(t, s, r, d, Mask(mask, 0), x, q, y);
    InsertOneMeaning(InsertOneWay(t, s, r, d, Mask(mask, 0)), d, Inverse(r), s, Mask(0, mask), x, q, y);
  }

  /** An insertion adds the edge and, if asked to, the reference, each at both ends, and
      changes nothing else. */
  lemma InsertedMeaning(t: Table, s: UnitId, r: Relation, d: UnitId, reference: bool, mask: U16, x: UnitId, q: Relation, y: UnitId)
    ensures Look(Inserted(t, s, r, d, reference, mask), x, q, y) ==
      if s != d && (IsEdge(s, r, d, x, q, y) || (reference && IsEdge(s, References, d, x, q, y)))
      then Some(if x == s then Mask(mask, 0) else Mask(0, mask))
      else Look(t, x, q, y)
  {
    if s != d {
      InsertBothMeaning(t, s, r, d, mask, x, q, y);
      InsertBothMeaning(InsertBothWays(t, s, r, d, mask), s, References, d, mask, x, q, y);
    }
  }

  lemma EdgeMirrored(s: UnitId, r: Relation, d: UnitId, x: UnitId, q: Relation, y: UnitId)
    ensures IsEdge(s, r, d, x, q, y) <==> IsEdge(s, r, d, y, Inverse(q), x)
  {
    InverseTwice(q);
    InverseTwice(r);
  }

  /** The mirror is kept by every insertion. */
  lemma InsertMirrors(t: Table, s: UnitId, r: Relation, d: UnitId, reference: bool, mask: U16)
    requires Mirrored(t)
    ensures Mirrored(Inserted(t, s, r, d, reference, mask))
  {
    var t' := Inserted(t, s, r, d, reference, mask);
    forall x, q, y ensures Look(t', y, Inverse(q), x) == FlipIf(Look(t', x, q, y)) {
      EdgeMirrored(s, r, d, x, q, y);
      EdgeMirrored(s, References, d, x, q, y);
      assert Look(t, y, Inverse(q), x) == FlipIf(Look(t, x, q, y));
      InsertedMeaning(t, s, r, d, reference, mask, x, q, y);
      InsertedMeaning(t, s, r, d, reference, mask, y, Inverse(q), x);
    }
    forall x, q ensures Look(t', x, q, x) == None {
      InsertedMeaning(t, s, r, d, reference, mask, x, q, x);
    }
  }

  lemma InsertOneHusks(t: Table, s: UnitId, r: Relation, d: UnitId, m: Mask)
    requires NoHusks(t)
    ensures NoHusks(InsertOneWay(t, s, r, d, m))
  {
    var t' := InsertOneWay(t, s, r, d, m);
    assert r in t'[s] && d in t'[s][r];
  }

  lemma InsertHusks(t: Table, s: UnitId, r: Relation, d: UnitId, reference: bool, mask: U16)
    requires NoHusks(t)
    ensures NoHusks(Inserted(t, s, r, d, reference, mask))
  {
    InsertOneHusks(t, s, r, d, Mask(mask, 0));
    InsertOneHusks(InsertOneWay(t, s, r, d, Mask(mask, 0)), d, Inverse(r), s, Mask(0, mask));
    var t1 := InsertBothWays(t, s, r, d, mask);
    InsertOneHusks(t1, s, References, d, Mask(mask, 0));
    InsertOneHusks(InsertOneWay(t1, s, References, d, Mask(mask, 0)), d, Inverse(References), s, Mask(0, mask));
  }

  /** In terms of the two names: after an insertion the edge is found at both its ends. */
  lemma InsertedEdge(t: Table, s: UnitId, r: Relation, d: UnitId, q: Relation, reference: bool, mask: U16)
    requires s != d && (Opposite(r, q) || Opposite(q, r))
    ensures Edge(Inserted(t, s, r, d, reference, mask), s, r, d) && Edge(Inserted(t, s, r, d, reference, mask), d, q, s)
  {
    InverseMeaning(r, q);
    InsertedMeaning(t, s, r, d, reference, mask, s, r, d);
    InsertedMeaning(t, s, r, d, reference, mask, d, q, s);
  }

  // ----- removal -----

  lemma OneWayDrops(t: Table, s: UnitId, r: Relation, d: UnitId)
    requires NoHusks(t)
    ensures RemoveOneWay(t, s, r, d) == t - {s}
  {
    if s in t {
      RelationStays(t[s], r, d);
    } else {
      assert t - {s} == t;
    }
  }

  /** What is left of the relations of a unit is never nothing. */
  lemma RelationStays(sv: map<Relation, Dests>, r: Relation, d: UnitId)
    requires sv != map[]
    ensures (if r in sv then sv[r := sv[r] - {d}] else sv) != map[]
  {
    var q :| q in sv;
    assert q in if r in sv then sv[r := sv[r] - {d}] else sv;
  }

  /** Removing one edge drops everything stored at either of its ends, whether or not the
      edge was there. */
  lemma RemovedMeaning(t: Table, s: UnitId, r: Relation, d: UnitId)
    requires NoHusks(t)
    ensures Removed(t, s, r, d) == t - {s, d}
  {
    OneWayDrops(t, s, r, d);
    OneWayDrops(t - {s}, d, Inverse(r), s);
  }

  /** Some unit outside `gone` has an edge to a unit of `gone`. */
  ghost predicate SeenFromOutside(t: Table, gone: set<UnitId>) {
    exists x, r, y :: x !in gone && y in gone && Look(t, x, r, y).Some?
  }

  /** Dropping the entries of some units keeps the mirror exactly when no other unit has an
      edge to one of them. */
  lemma DropMirrorsIff(t: Table, gone: set<UnitId>)
    requires Mirrored(t)
    ensures Mirrored(t - gone) <==> !SeenFromOutside(t, gone)
  {
    var t' := t - gone;
    assert forall x, r, y :: Look(t', x, r, y) == if x in gone then None else Look(t, x, r, y);
    if SeenFromOutside(t, gone) {
      var x, r, y :| x !in gone && y in gone && Look(t, x, r, y).Some?;
      assert Look(t', y, Inverse(r), x) != FlipIf(Look(t', x, r, y));
    } else {
      forall x, r, y ensures Look(t', y, Inverse(r), x) == FlipIf(Look(t', x, r, y)) {
        assert Look(t, y, Inverse(r), x) == FlipIf(Look(t, x, r, y));
      }
    }
  }

  /** So a removal keeps the mirror exactly when the two units have no edge with any third. */
  lemma RemoveMirrorsIff(t: Table, s: UnitId, r: Relation, d: UnitId)
    requires Mirrored(t) && NoHusks(t)
    ensures Mirrored(Removed(t, s, r, d)) <==>
      !exists x, q, y :: x != s && x != d && (y == s || y == d) && Look(t, x, q, y).Some?
  {
    RemovedMeaning(t, s, r, d);
    DropMirrorsIff(t, {s, d});
    if SeenFromOutside(t, {s, d}) {
      var x, q, y :| x !in {s, d} && y in {s, d} && Look(t, x, q, y).Some?;
      assert x != s && x != d && (y == s || y == d);
    }
  }

  /** What a removal is for: both directions of one edge go, nothing else. */
  function RemovedExactly(t: Table, s: UnitId, r: Relation, d: UnitId): Table {
    map x | x in t :: map q | q in t[x] :: map y | y in t[x][q] && !IsEdge(s, r, d, x, q, y) :: t[x][q][y]
  }

  lemma ExactlyMeaning(t: Table, s: UnitId, r: Relation, d: UnitId, x: UnitId, q: Relation, y: UnitId)
    ensures Look(RemovedExactly(t, s, r, d), x, q, y) == if IsEdge(s, r, d, x, q, y) then None else Look(t, x, q, y)
  {
  }

  /** The exact removal keeps the mirror always. */
  lemma ExactlyMirrors(t: Table, s: UnitId, r: Relation, d: UnitId)
    requires Mirrored(t)
    ensures Mirrored(RemovedExactly(t, s, r, d))
  {
    var t' := RemovedExactly(t, s, r, d);
    forall x, q, y ensures Look(t', y, Inverse(q), x) == FlipIf(Look(t', x, q, y)) {
      EdgeMirrored(s, r, d, x, q, y);
      ExactlyMeaning(t, s, r, d, x, q, y);
      ExactlyMeaning(t, s, r, d, y, Inverse(q), x);
      assert Look(t, y, Inverse(q), x) == FlipIf(Look(t, x, q, y));
    }
    forall x, q ensures Look(t', x, q, x) == None {
      ExactlyMeaning(t, s, r, d, x, q, x);
    }
  }

  // ----- all edges of a unit -----

  /** The units `s` has an edge to. */
  function Neighbours(t: Table, s: UnitId): set<UnitId> {
    if s in t then set r, d | r in t[s] && d in t[s][r] :: d else {}
  }

  /** Taking a unit away takes the entries of all its neighbours away too. */
  function UnitGone(t: Table, s: UnitId): Table {
    if s in t then t - ({s} + Neighbours(t, s)) else t
  }

  /** It keeps the mirror exactly when its neighbours have edges only with it and with each
      other. */
  lemma UnitGoneMirrorsIff(t: Table, s: UnitId)
    requires Mirrored(t)
    ensures Mirrored(UnitGone(t, s)) <==> !(s in t && SeenFromOutside(t, {s} + Neighbours(t, s)))
  {
    DropMirrorsIff(t, {s} + Neighbours(t, s));
  }

  // ----- runs -----

  datatype DepOp =
    | DepInsert(s: UnitId, r: Relation, d: UnitId, reference: bool, mask: U16)
    | DepRemove(s: UnitId, r: Relation, d: UnitId)
    | DepRemoveUnit(s: UnitId)

  function Applied(t: Table, op: DepOp): Table {
    match op
    case DepInsert(s, r, d, reference, mask) => Inserted(t, s, r, d, reference, mask)
    case DepRemove(s, r, d) => Removed(t, s, r, d)
    case DepRemoveUnit(s) => UnitGone(t, s)
  }

  /** A removal that nobody else sees. */
  ghost predicate Unseen(t: Table, op: DepOp) {
    match op
    case DepInsert(_, _, _, _, _) => true
    case DepRemove(s, _, d) => !SeenFromOutside(t, {s, d})
    case DepRemoveUnit(s) => !(s in t && SeenFromOutside(t, {s} + Neighbours(t, s)))
  }

  function RunDep(ops: seq<DepOp>): Table {
    if ops == [] then map[] else Applied(RunDep(ops[..|ops| - 1]), ops[|ops| - 1])
  }

  /** Over every run the store is mirrored as long as no removal was seen from outside, and
      the first that was breaks it. */
  lemma {:induction false} RunMirrors(ops: seq<DepOp>)
    ensures NoHusks(RunDep(ops))
    ensures (forall i :: 0 <= i < |ops| ==> Unseen(RunDep(ops[..i]), ops[i])) ==> Mirrored(RunDep(ops))
    ensures ops != [] && (forall i :: 0 <= i < |ops| - 1 ==> Unseen(RunDep(ops[..i]), ops[i])) ==>
      (Mirrored(RunDep(ops)) <==> Unseen(RunDep(ops[..|ops| - 1]), ops[|ops| - 1]))
    decreases |ops|
  {
    if ops != [] {
      var before, op := ops[..|ops| - 1], ops[|ops| - 1];
      assert forall i :: 0 <= i < |before| ==> before[..i] == ops[..i] && before[i] == ops[i];
      RunMirrors(before);
      AppliedHusks(RunDep(before), op);
      if Mirrored(RunDep(before)) {
        AppliedMirrorsIff(RunDep(before), op);
      }
    }
  }

  /** An input that breaks it: 1 requires 2, 2 requires 3, and 1 stops requiring 2. */
  lemma RemovalBreaks()
    ensures
      var t := RunDep([DepInsert(1, Requires, 2, false, 1), DepInsert(2, Requires, 3, false, 1), DepRemove(1, Requires, 2)]);
      !Mirrored(t) && Look(t, 3, RequiresBy, 2).Some? && Look(t, 2, Requires, 3).None?
  {
    var ops := [DepInsert(1, Requires, 2, false, 1), DepInsert(2, Requires, 3, false, 1), DepRemove(1, Requires, 2)];
    assert ops[..2] == [ops[0], ops[1]] && ops[..2][..1] == [ops[0]] && [ops[0]][..0] == [];
    var t1 := Inserted(map[], 1, Requires, 2, false, 1);
    var t2 := Inserted(t1, 2, Requires, 3, false, 1);
    assert RunDep([ops[0]]) == t1;
    assert RunDep(ops[..2]) == t2;
    InsertHusks(map[], 1, Requires, 2, false, 1);
    InsertHusks(t1, 2, Requires, 3, false, 1);
    RemovedMeaning(t2, 1, Requires, 2);
    InsertedMeaning(t1, 2, Requires, 3, false, 1, 3, RequiresBy, 2);
    var t := RunDep(ops);
    assert t == t2 - {1, 2};
    assert Look(t, 3, RequiresBy, 2) == Look(t2, 3, RequiresBy, 2);
    assert Look(t, 2, Inverse(RequiresBy), 3) != FlipIf(Look(t, 3, RequiresBy, 2));
  }

  lemma AppliedHusks(t: Table, op: DepOp)
    requires NoHusks(t)
    ensures NoHusks(Applied(t, op))
  {
    match op {
      case DepInsert(s, r, d, reference, mask) => InsertHusks(t, s, r, d, reference, mask);
      case DepRemove(s, r, d) => RemovedMeaning(t, s, r, d);
      case DepRemoveUnit(s) =>
    }
  }

  lemma AppliedMirrorsIff(t: Table, op: DepOp)
    requires Mirrored(t) && NoHusks(t)
    ensures Mirrored(Applied(t, op)) <==> Unseen(t, op)
  {
    match op {
      case DepInsert(s, r, d, reference, mask) => InsertMirrors(t, s, r, d, reference, mask);
      case DepRemove(s, r, d) =>
        RemovedMeaning(t, s, r, d);
        DropMirrorsIff(t, {s, d});
      case DepRemoveUnit(s) => UnitGoneMirrorsIff(t, s);
    }
  }

  // ----- what the scheduler gets to see -----

  /** An edge of one of these relations leads from `u` to `v`. */
  predicate Edge(t: Table, u: UnitId, r: Relation, v: UnitId) {
    Look(t, u, r, v).Some?
  }

  predicate NeededBy(t: Table, u: UnitId, v: UnitId) {
    Edge(t, u, RequiresBy, v) || Edge(t, u, RequisiteOf, v) || Edge(t, u, BoundBy, v)
  }

  /** What each question about a unit asks for, in terms of the edges that are stored: what
      its start pulls in, what its failure, its stop, its restart and its reload spread to, and
      what it is ordered against. */
  predicate Answers(t: Table, u: UnitId, a: Atom, v: UnitId) {
    match a
    case PullInStart => Edge(t, u, Requires, v) || Edge(t, u, BindsTo, v)
    case PullInStartIgnored => Edge(t, u, Wants, v) || Edge(t, u, UpHolds, v)
    case PullInVerify => Edge(t, u, Requisite, v)
    case PullInStop => Edge(t, u, Conflicts, v)
    case PullInStopIgnored | PropagateStopFailure => Edge(t, u, ConflictedBy, v)
    case PropagateStartFailure => NeededBy(t, u, v)
    case PropagateStop => NeededBy(t, u, v) || Edge(t, u, ConsistsOf, v) || Edge(t, u, PropagatesStopTo, v)
    case PropagateRestart => NeededBy(t, u, v) || Edge(t, u, ConsistsOf, v)
    case PropagateReload => Edge(t, u, PropagatesReloadTo, v)
    case AtomBefore => Edge(t, u, BeforeRel, v)
    case AtomAfter => Edge(t, u, AfterRel, v)
    case AtomTriggeredBy => Edge(t, u, TriggeredBy, v)
  }

  /** The relations an atom is spread over are those of the question. */
  lemma AtomMeaning(t: Table, u: UnitId, a: Atom, v: UnitId)
    ensures (exists r :: r in RelationsOf(a) && Look(t, u, r, v).Some?) <==> Answers(t, u, a, v)
  {
    forall r | Look(t, u, r, v).Some? ensures r in RelationsOf(a) ==> Answers(t, u, a, v) {
    }
    match a {
      case PullInStart => assert Requires in RelationsOf(a) && BindsTo in RelationsOf(a);
      case PullInStartIgnored => assert Wants in RelationsOf(a) && UpHolds in RelationsOf(a);
      case PullInVerify => assert Requisite in RelationsOf(a);
      case PullInStop => assert Conflicts in RelationsOf(a);
      case PullInStopIgnored => assert ConflictedBy in RelationsOf(a);
      case PropagateStopFailure => assert ConflictedBy in RelationsOf(a);
      case PropagateStartFailure => NeededIn(a);
      case PropagateStop => NeededIn(a); assert ConsistsOf in RelationsOf(a) && PropagatesStopTo in RelationsOf(a);
      case PropagateRestart => NeededIn(a); assert ConsistsOf in RelationsOf(a);
      case PropagateReload => assert PropagatesReloadTo in RelationsOf(a);
      case AtomBefore => assert BeforeRel in RelationsOf(a);
      case AtomAfter => assert AfterRel in RelationsOf(a);
      case AtomTriggeredBy => assert TriggeredBy in RelationsOf(a);
    }
  }

  lemma NeededIn(a: Atom)
    requires a.PropagateStartFailure? || a.PropagateStop? || a.PropagateRestart?
    ensures RequiresBy in RelationsOf(a) && RequisiteOf in RelationsOf(a) && BoundBy in RelationsOf(a)
  {
  }

  /** `db` gives the answers of the store, in whatever order. */
  ghost predicate Represents(db: Db, t: Table) {
    forall u: UnitId, a: Atom, v: UnitId :: v in Gets(db, u, a) <==> Answers(t, u, a, v)
  }

  /** A mirrored store orders both ways: `v` is after `u` exactly when `u` is before `v`, and
      no unit is ordered against itself. */
  lemma MirroredOrder(db: Db, t: Table)
    requires Mirrored(t) && Represents(db, t)
    ensures OrderMirrored(db)
    ensures forall u: UnitId :: u !in Gets(db, u, AtomAfter) && u !in Gets(db, u, AtomBefore)
  {
    forall u: UnitId, v: UnitId ensures v in Gets(db, u, AtomAfter) <==> u in Gets(db, v, AtomBefore) {
      assert v in Gets(db, u, AtomAfter) <==> Answers(t, u, AtomAfter, v);
      assert u in Gets(db, v, AtomBefore) <==> Answers(t, v, AtomBefore, u);
      assert Look(t, v, Inverse(AfterRel), u) == FlipIf(Look(t, u, AfterRel, v));
    }
    forall u: UnitId ensures u !in Gets(db, u, AtomAfter) && u !in Gets(db, u, AtomBefore) {
      assert u in Gets(db, u, AtomAfter) <==> Answers(t, u, AtomAfter, u);
      assert u in Gets(db, u, AtomBefore) <==> Answers(t, u, AtomBefore, u);
    }
  }

  // ----- the store itself -----

  class UnitDepData {
    var t: Table

    ghost predicate Valid()
      reads this
    {
      NoHusks(t)
    }

    constructor ()
      ensures Valid() && Mirrored(t) && t == map[]
    {
      t := map[];
    }

    method Insert(s: UnitId, r: Relation, d: UnitId, reference: bool, mask: U16)
      requires Valid()
      modifies this
      ensures Valid() && t == Inserted(old(t), s, r, d, reference, mask)
      ensures old(Mirrored(t)) ==> Mirrored(t)
    {
      InsertHusks(t, s, r, d, reference, mask);
      ghost var t0 := t;
      if s != d {
        AddOneWay(s, r, d, Mask(mask, 0));
        AddOneWay(d, Inverse(r), s, Mask(0, mask));
        if reference {
          AddOneWay(s, References, d, Mask(mask, 0));
          AddOneWay(d, Inverse(References), s, Mask(0, mask));
        }
      }
      if Mirrored(t0) {
        InsertMirrors(t0, s, r, d, reference, mask);
      }
    }

    method AddOneWay(s: UnitId, r: Relation, d: UnitId, m: Mask)
      modifies this
      ensures t == InsertOneWay(old(t), s, r, d, m)
    {
      var sv: map<Relation, Dests> := map[];
      if s in t {
        sv := t[s];
      }
      var dv: Dests := map[];
      if r in sv {
        dv := sv[r];
      }
      t := t[s := sv[r := dv[d := m]]];
    }

    method DropOneWay(s: UnitId, r: Relation, d: UnitId)
      modifies this
      ensures t == RemoveOneWay(old(t), s, r, d)
    {
      if s in t {
        var sv := t[s];
        if r in sv {
          sv := sv[r := sv[r] - {d}];
        }
        if sv != map[] {
          t := t - {s};
        } else {
          t := t[s := sv];
        }
      }
    }

    /** One edge is asked to go, and with it goes all that its two ends have stored. */
    method Remove(s: UnitId, r: Relation, d: UnitId)
      requires Valid()
      modifies this
      ensures Valid() && t == old(t) - {s, d}
    {
      RemovedMeaning(t, s, r, d);
      DropOneWay(s, r, d);
      DropOneWay(d, Inverse(r), s);
    }

    /** The edges are listed first and removed one by one; the first removal already drops
        the unit's whole entry. */
    method RemoveUnit(s: UnitId)
      requires Valid()
      modifies this
      ensures Valid() && t == UnitGone(old(t), s)
    {
      if s in t {
        var removes := ListEdges(t[s]);
        ghost var t0 := t;
        var i := 0;
        while i < |removes|
          invariant i <= |removes| && Valid()
          invariant t == t0 - EndsOf(s, removes[..i])
        {
          EndsNext(t0, s, removes, i);
          Remove(s, removes[i].0, removes[i].1);
          i := i + 1;
        }
        assert removes[..i] == removes;
        EdgesThere(t0, s, removes);
      }
    }

    method IsDepWith(s: UnitId, r: Relation, d: UnitId) returns (b: bool)
      ensures b <==> Look(t, s, r, d).Some?
    {
      b := s in t && r in t[s] && d in t[s][r];
    }

    /** The destinations of all relations of the atom. */
    method GetsAtom(s: UnitId, a: Atom) returns (dests: seq<UnitId>)
      ensures forall d :: d in dests <==> Answers(t, s, a, d)
    {
      dests := [];
      var rs := RelationsOf(a);
      var i := 0;
      while i < |rs|
        invariant i <= |rs| && forall d :: d in dests <==> exists j :: 0 <= j < i && Look(t, s, rs[j], d).Some?
      {
        var more := [];
        if s in t && rs[i] in t[s] {
          more := ListUnits(t[s][rs[i]].Keys);
        }
        assert forall d :: d in more <==> Look(t, s, rs[i], d).Some?;
        dests := dests + more;
        i := i + 1;
      }
      forall d ensures d in dests <==> Answers(t, s, a, d) {
        assert forall r :: r in rs <==> exists j :: 0 <= j < |rs| && rs[j] == r;
        AtomMeaning(t, s, a, d);
      }
    }

    /** A unit is related by an atom exactly when it is among the units found by it. */
    method IsDepAtomWith(s: UnitId, a: Atom, d: UnitId) returns (b: bool)
      ensures b <==> Answers(t, s, a, d)
    {
      AtomMeaning(t, s, a, d);
      var rs := RelationsOf(a);
      var i := 0;
      while i < |rs|
        invariant i <= |rs| && forall j :: 0 <= j < i ==> Look(t, s, rs[j], d).None?
      {
        b := IsDepWith(s, rs[i], d);
        if b {
          assert rs[i] in rs;
          return;
        }
        i := i + 1;
      }
      return false;
    }
  }

  function DestsOf(es: seq<(Relation, UnitId)>): set<UnitId> {
    set e | e in es :: e.1
  }

  /** The entries that have gone after removing these edges of `s`. */
  function EndsOf(s: UnitId, es: seq<(Relation, UnitId)>): set<UnitId> {
    if es == [] then {} else {s} + DestsOf(es)
  }

  lemma EndsNext(t: Table, s: UnitId, es: seq<(Relation, UnitId)>, i: nat)
    requires i < |es|
    ensures t - EndsOf(s, es[..i + 1]) == t - EndsOf(s, es[..i]) - {s, es[i].1}
  {
    assert es[..i + 1] == es[..i] + [es[i]];
    assert EndsOf(s, es[..i + 1]) == EndsOf(s, es[..i]) + {s, es[i].1};
  }

  lemma EdgesThere(t: Table, s: UnitId, es: seq<(Relation, UnitId)>)
    requires NoHusks(t) && s in t && forall r, d :: (r, d) in es <==> r in t[s] && d in t[s][r]
    ensures DestsOf(es) == Neighbours(t, s) && es != []
  {
    var r :| r in t[s];
    assert t[s][r] != map[];
    var d :| d in t[s][r];
    assert (r, d) in es;
    forall x ensures x in DestsOf(es) <==> x in Neighbours(t, s) {
      if x in DestsOf(es) {
        var e :| e in es && e.1 == x;
        assert (e.0, e.1) in es;
      }
      if x in Neighbours(t, s) {
        var q :| q in t[s] && x in t[s][q];
        assert (q, x) in es && (q, x).1 == x;
      }
    }
  }

  method ListUnits(s: set<UnitId>) returns (us: seq<UnitId>)
    ensures forall u :: u in us <==> u in s
  {
    us := [];
    var rest := s;
    while rest != {}
      invariant rest <= s && forall u :: u in us <==> u in s && u !in rest
      decreases rest
    {
      var u :| u in rest;
      us, rest := us + [u], rest - {u};
    }
  }

  method ListEdges(sv: map<Relation, Dests>) returns (es: seq<(Relation, UnitId)>)
    ensures forall r, d :: (r, d) in es <==> r in sv && d in sv[r]
  {
    es := [];
    var rest := set r, d | r in sv && d in sv[r] :: (r, d);
    ghost var all := rest;
    while rest != {}
      invariant rest <= all && forall e :: e in es <==> e in all && e !in rest
      decreases rest
    {
      var e :| e in rest;
      es, rest := es + [e], rest - {e};
    }
  }
}
