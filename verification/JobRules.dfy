/** What a request comes to, told from the edges that are stored and the states of the units:
    which jobs are staged, and why (process1/src/manager/unit/job/job_transaction.rs,
    job_entry.rs, process1/src/manager/unit/unit_base/ub_relation_atom.rs). */
module JobRules {
  import opened Outcomes
  import opened UnitBase
  import opened UnitDep
  import opened JobEntry
  import opened JobExpansion

  predicate UpUnit(active: Active, u: UnitId) {
    u in active && (active[u].UnitActive? || active[u].UnitReloading?)
  }

  /** A start, or a restart, which starts too. */
  predicate Begins(a: Item) {
    a.kind.Start? || a.kind.Restart?
  }

  /** Does the staged job `a` call for the job `b`? A start pulls in starts, verifies and stops;
      a stop spreads to stops; a restart spreads as a restart and a reload as a reload, but
      only to units that are up: to any other unit they come as a nop. */
  predicate Calls(t: Table, active: Active, a: Item, b: Item) {
    var (u, v) := (a.unit, b.unit);
    match b.kind
    case Start => Begins(a) && (Edge(t, u, Requires, v) || Edge(t, u, BindsTo, v) || Edge(t, u, Wants, v) || Edge(t, u, UpHolds, v))
    case Verify => Begins(a) && Edge(t, u, Requisite, v)
    case Stop =>
      (Begins(a) && (Edge(t, u, Conflicts, v) || Edge(t, u, ConflictedBy, v))) ||
      (a.kind.Stop? && (NeededBy(t, u, v) || Edge(t, u, ConsistsOf, v) || Edge(t, u, PropagatesStopTo, v)))
    case Restart => UpUnit(active, v) && Restarts(t, a, v)
    case Reload => UpUnit(active, v) && Reloads(t, a, v)
    case Nop => !UpUnit(active, v) && (Restarts(t, a, v) || Reloads(t, a, v))
    case _ => false
  }

  predicate Restarts(t: Table, a: Item, v: UnitId) {
    a.kind.Restart? && (NeededBy(t, a.unit, v) || Edge(t, a.unit, ConsistsOf, v))
  }

  predicate Reloads(t: Table, a: Item, v: UnitId) {
    a.kind.Reload? && Edge(t, a.unit, PropagatesReloadTo, v)
  }

  lemma AsksCalls(t: Table, db: Db, active: Active, a: Item, v: UnitId, k: JobKind)
    requires Represents(db, t) && Asks(db, a, v, k)
    ensures Calls(t, active, a, Mapped(active, v, k))
  {
    forall atom: Atom ensures v in Gets(db, a.unit, atom) <==> Answers(t, a.unit, atom, v) {
    }
  }

  /** Which kind of job a called-for job was asked for as. */
  function AskedAs(a: Item, b: Item): JobKind {
    match b.kind
    case Restart => TryRestart
    case Reload => TryReload
    case Nop => if a.kind.Restart? then TryRestart else TryReload
    case k => k
  }

  lemma CallsAsks(t: Table, db: Db, active: Active, a: Item, b: Item)
    requires Represents(db, t) && Calls(t, active, a, b)
    ensures Asks(db, a, b.unit, AskedAs(a, b)) && Mapped(active, b.unit, AskedAs(a, b)) == b
  {
    forall atom: Atom ensures b.unit in Gets(db, a.unit, atom) <==> Answers(t, a.unit, atom, b.unit) {
    }
  }

  /** One rule of the expansion, in both readings. */
  lemma CallsArePulls(t: Table, db: Db, active: Active, a: Item, b: Item)
    requires Represents(db, t)
    ensures Pulls(db, active, a, b) <==> Calls(t, active, a, b)
  {
    if Pulls(db, active, a, b) {
      var k :| Asks(db, a, b.unit, k) && Mapped(active, b.unit, k) == b;
      AsksCalls(t, db, active, a, b.unit, k);
    }
    if Calls(t, active, a, b) {
      CallsAsks(t, db, active, a, b);
    }
  }

  // ----- what is staged -----

  ghost predicate CallChain(t: Table, active: Active, p: seq<Item>) {
    p != [] && forall i, j :: 0 <= i < |p| && j == i + 1 && j < |p| ==> Calls(t, active, p[i], p[j])
  }

  lemma ChainIsPath(t: Table, db: Db, active: Active, p: seq<Item>)
    requires Represents(db, t)
    ensures CallChain(t, active, p) <==> IsPath(db, active, p)
  {
    forall i, j | 0 <= i < |p| && j == i + 1 && j < |p| ensures Pulls(db, active, p[i], p[j]) <==> Calls(t, active, p[i], p[j]) {
      CallsArePulls(t, db, active, p[i], p[j]);
    }
  }

  /** A job is staged exactly when it is asked for, or a chain of jobs that call for one
      another leads to it. */
  lemma StagedIff(t: Table, db: Db, active: Active, roots: set<Item>, s: set<Item>, x: Item)
    requires Represents(db, t) && LeastOver(db, active, roots, s)
    ensures x in s <==> exists p :: CallChain(t, active, p) && p[0] in roots && p[|p| - 1] == x
  {
    LeastIsReachable(db, active, roots, s, x);
    if x in s {
      var r :| r in roots && Reaches(db, active, r, x);
      var p :| IsPath(db, active, p) && p[0] == r && p[|p| - 1] == x;
      ChainIsPath(t, db, active, p);
    }
    if p :| CallChain(t, active, p) && p[0] in roots && p[|p| - 1] == x {
      ChainIsPath(t, db, active, p);
      assert Reaches(db, active, p[0], x);
    }
  }

  /** Step by step: whatever a staged job calls for is staged, and what is staged is asked for
      or called for by a staged job. */
  lemma StagedStep(t: Table, db: Db, active: Active, roots: set<Item>, s: set<Item>, b: Item)
    requires Represents(db, t) && LeastOver(db, active, roots, s)
    ensures b in s <==> b in roots || exists a :: a in s && Calls(t, active, a, b)
  {
    if a :| a in s && Calls(t, active, a, b) {
      CallsAsks(t, db, active, a, b);
    }
    if b in s && b !in roots && forall a :: a in s ==> !Calls(t, active, a, b) {
      var c := s - {b};
      forall a, v, k | a in c && Asks(db, a, v, k) ensures Mapped(active, v, k) in c {
        AsksCalls(t, db, active, a, v, k);
      }
      assert Closed(db, active, c) && roots <= c;
    }
  }

  // ----- restarts and reloads -----

  /** A reload reaches every unit it propagates to that is up, as a reload, and so does a
      restart as a restart. */
  lemma SpreadsToUpUnits(db: Db, active: Active, s: set<Item>, u: UnitId, v: UnitId)
    requires Closed(db, active, s)
    ensures Item(u, Reload) in s && v in Gets(db, u, PropagateReload) ==> Item(v, if UpUnit(active, v) then Reload else Nop) in s
    ensures Item(u, Restart) in s && v in Gets(db, u, PropagateRestart) ==> Item(v, if UpUnit(active, v) then Restart else Nop) in s
  {
    assert v in Gets(db, u, PropagateReload) ==> Asks(db, Item(u, Reload), v, TryReload);
    assert v in Gets(db, u, PropagateRestart) ==> Asks(db, Item(u, Restart), v, TryRestart);
  }

  /** But no unit that is not up is reloaded or restarted unless the request is for it. */
  lemma OnlyUpUnits(db: Db, active: Active, roots: set<Item>, s: set<Item>, x: Item)
    requires LeastOver(db, active, roots, s) && x in s && x !in roots && (x.kind.Reload? || x.kind.Restart?)
    ensures UpUnit(active, x.unit)
  {
    var c := set y | y in s && (y in roots || UpUnit(active, y.unit) || !(y.kind.Reload? || y.kind.Restart?));
    forall a, v, k | a in c && Asks(db, a, v, k) ensures Mapped(active, v, k) in c {
      assert Mapped(active, v, k) in s;
    }
    assert Closed(db, active, c) && roots <= c;
  }

  /** What is staged for the unit of the request itself. */
  predicate RootStaged(active: Active, u: UnitId, kind: JobKind, items: set<Item>) {
    match kind
    case TryReload => Item(u, if UpUnit(active, u) then Reload else Nop) in items
    case TryRestart => Item(u, if UpUnit(active, u) then Restart else Nop) in items
    case ReloadOrStart => Item(u, if UpUnit(active, u) then Reload else Start) in items
    case k => Item(u, k) in items
  }

  lemma RootMeaning(active: Active, u: UnitId, kind: JobKind, items: set<Item>)
    ensures Mapped(active, u, kind) in items <==> RootStaged(active, u, kind, items)
  {
  }

  // ----- some relations in their own terms -----

  /** `s` holds everything its jobs call for. */
  ghost predicate Complete(t: Table, active: Active, s: set<Item>) {
    forall a, b :: a in s && Calls(t, active, a, b) ==> b in s
  }

  lemma LeastComplete(t: Table, db: Db, active: Active, roots: set<Item>, s: set<Item>)
    requires Represents(db, t) && LeastOver(db, active, roots, s)
    ensures Complete(t, active, s)
  {
    forall a, b | a in s && Calls(t, active, a, b) ensures b in s {
      CallsAsks(t, db, active, a, b);
    }
  }

  /** `u` requires `v`: its start starts `v`; a stop of `v` stops it, a restart of `v` restarts
      it if it is up; and if `v` fails to start, that failure spreads to it. */
  lemma RequiresMeans(t: Table, u: UnitId, v: UnitId, reference: bool, mask: U16, db: Db, active: Active, roots: set<Item>, s: set<Item>)
    requires u != v && Represents(db, Inserted(t, u, Requires, v, reference, mask)) && LeastOver(db, active, roots, s)
    ensures Item(u, Start) in s || Item(u, Restart) in s ==> Item(v, Start) in s
    ensures Item(v, Stop) in s ==> Item(u, Stop) in s
    ensures Item(v, Restart) in s && UpUnit(active, u) ==> Item(u, Restart) in s
    ensures u in Gets(db, v, PropagateStartFailure)
  {
    var t' := Inserted(t, u, Requires, v, reference, mask);
    InsertedEdge(t, u, Requires, v, RequiresBy, reference, mask);
    LeastComplete(t', db, active, roots, s);
    assert Calls(t', active, Item(u, Start), Item(v, Start)) && Calls(t', active, Item(u, Restart), Item(v, Start));
    assert Calls(t', active, Item(v, Stop), Item(u, Stop));
    assert Answers(t', v, PropagateStartFailure, u);
  }

  /** `u` has `v` as a requisite: its start asks for a verify of `v` and does not start it; and
      if the verify fails, that spreads to `u`. */
  lemma RequisiteMeans(t: Table, u: UnitId, v: UnitId, reference: bool, mask: U16, db: Db, active: Active, roots: set<Item>, s: set<Item>)
    requires u != v && Represents(db, Inserted(t, u, Requisite, v, reference, mask)) && LeastOver(db, active, roots, s)
    ensures Item(u, Start) in s || Item(u, Restart) in s ==> Item(v, Verify) in s
    ensures Item(v, Stop) in s ==> Item(u, Stop) in s
    ensures u in Gets(db, v, PropagateStartFailure)
  {
    var t' := Inserted(t, u, Requisite, v, reference, mask);
    InsertedEdge(t, u, Requisite, v, RequisiteOf, reference, mask);
    LeastComplete(t', db, active, roots, s);
    assert Calls(t', active, Item(u, Start), Item(v, Verify)) && Calls(t', active, Item(u, Restart), Item(v, Verify));
    assert Calls(t', active, Item(v, Stop), Item(u, Stop));
    assert Answers(t', v, PropagateStartFailure, u);
  }

  /** `u` conflicts with `v`: the start of either stops the other. */
  lemma ConflictsMeans(t: Table, u: UnitId, v: UnitId, reference: bool, mask: U16, db: Db, active: Active, roots: set<Item>, s: set<Item>)
    requires u != v && Represents(db, Inserted(t, u, Conflicts, v, reference, mask)) && LeastOver(db, active, roots, s)
    ensures Item(u, Start) in s ==> Item(v, Stop) in s
    ensures Item(v, Start) in s ==> Item(u, Stop) in s
  {
    var t' := Inserted(t, u, Conflicts, v, reference, mask);
    InsertedEdge(t, u, Conflicts, v, ConflictedBy, reference, mask);
    LeastComplete(t', db, active, roots, s);
    assert Calls(t', active, Item(u, Start), Item(v, Stop)) && Calls(t', active, Item(v, Start), Item(u, Stop));
  }

  /** `u` is part of `v`: it is stopped and restarted with it, and not started. */
  lemma PartOfMeans(t: Table, u: UnitId, v: UnitId, reference: bool, mask: U16, db: Db, active: Active, roots: set<Item>, s: set<Item>)
    requires u != v && Represents(db, Inserted(t, u, PartOf, v, reference, mask)) && LeastOver(db, active, roots, s)
    ensures Item(v, Stop) in s ==> Item(u, Stop) in s
    ensures Item(v, Restart) in s && UpUnit(active, u) ==> Item(u, Restart) in s
  {
    var t' := Inserted(t, u, PartOf, v, reference, mask);
    InsertedEdge(t, u, PartOf, v, ConsistsOf, reference, mask);
    LeastComplete(t', db, active, roots, s);
    assert Calls(t', active, Item(v, Stop), Item(u, Stop));
  }
}
