/** Building a transaction: the staging table is filled with everything a request asks
    for, then checked against itself and against the live table
    (process1/src/manager/unit/job/job_transaction.rs, job_table.rs). */
module JobTransaction {
  import opened Outcomes
  import opened UnitBase
  import opened JobEntry
  import opened JobExpansion
  import opened JobRules
  import opened JobTableState
  import opened JobTableInvariant
  import opened JobTableCommit
  import opened JobAlloc
  import R = JobUnitRecord
  import V = JobUnitInvariant

  type Units = map<UnitId, R.Suspends>

  function ItemsOf(units: Units): set<Item> {
    set u, k | u in units && k in units[u] :: Item(u, k)
  }

  /** Every staged job is as it was made, and the two tables agree. */
  ghost predicate StageFine(units: Units, ids: map<nat, JobRef>, mode: JobMode) {
    && (forall u :: u in units ==> units[u] != map[])
    && (forall u, k :: u in units && k in units[u] ==> IsBasic(k) && units[u][k] == NewJob(units[u][k].id, u, k, mode))
    && IdsAgree(units, ids)
  }

  /** What was staged stays staged, unchanged. */
  predicate Extends(units: Units, units': Units) {
    forall u :: u in units ==> u in units' && forall k :: k in units[u] ==> k in units'[u] && units'[u][k] == units[u][k]
  }

  /** The units with one more staged job. */
  function WithJob(units: Units, j: Job): Units {
    units[j.unit := (if j.unit in units then units[j.unit] else map[])[j.kind := j]]
  }

  lemma WithJobFine(units: Units, ids: map<nat, JobRef>, mode: JobMode, id: nat, u: UnitId, k: JobKind)
    requires StageFine(units, ids, mode) && id !in ids && IsBasic(k) && !(u in units && k in units[u])
    ensures
      var units' := WithJob(units, NewJob(id, u, k, mode));
      && StageFine(units', ids[id := JobRef(u, k)], mode) && Extends(units, units')
      && ItemsOf(units') == ItemsOf(units) + {Item(u, k)}
  {
    var units': Units := WithJob(units, NewJob(id, u, k, mode));
    WithJobRefers(units, ids, id, u, k, NewJob(id, u, k, mode));
    assert k in units'[u];
    ItemsWithJob(units, NewJob(id, u, k, mode));
  }

  /** The id index agrees with the staged jobs. */
  ghost predicate IdsAgree(units: Units, ids: map<nat, JobRef>) {
    forall u, k, id :: Refers(ids, id, u, k) <==> u in units && k in units[u] && units[u][k].id == id
  }

  lemma WithJobRefers(units: Units, ids: map<nat, JobRef>, id: nat, u: UnitId, k: JobKind, j: Job)
    requires IdsAgree(units, ids) && id !in ids && !(u in units && k in units[u])
    requires j.unit == u && j.kind == k && j.id == id
    ensures IdsAgree(WithJob(units, j), ids[id := JobRef(u, k)])
  {
    var units': Units := WithJob(units, j);
    var ids' := ids[id := JobRef(u, k)];
    forall v: UnitId, l: JobKind, i: nat ensures Refers(ids', i, v, l) <==> v in units' && l in units'[v] && units'[v][l].id == i {
      assert Refers(ids, id, v, l) <==> v in units && l in units[v] && units[v][l].id == id;
      assert Refers(ids, i, v, l) <==> v in units && l in units[v] && units[v][l].id == i;
    }
  }

  lemma ItemsWithJob(units: Units, j: Job)
    ensures ItemsOf(WithJob(units, j)) == ItemsOf(units) + {Item(j.unit, j.kind)}
  {
    var units': Units := WithJob(units, j);
    forall x ensures x in ItemsOf(units') <==> x in ItemsOf(units) || x == Item(j.unit, j.kind) {
      assert x in ItemsOf(units') <==> x.unit in units' && x.kind in units'[x.unit];
      assert x in ItemsOf(units) <==> x.unit in units && x.kind in units[x.unit];
    }
  }

  /** How much may still be staged. */
  ghost function Missing(items: set<Item>, all: set<Item>): nat {
    |all - items|
  }

  /** Enough ids are left for everything that may still be staged. */
  ghost predicate Room(used: set<nat>, items: set<Item>, all: set<Item>) {
    |used| + Missing(items, all) <= ID_LIMIT
  }

  lemma MissingShrinks(all: set<Item>, items: set<Item>, x: Item)
    requires x in all && x !in items
    ensures Missing(items + {x}, all) == Missing(items, all) - 1
  {
    assert all - items == (all - (items + {x})) + {x};
  }

  lemma MissingMonotone(all: set<Item>, s1: set<Item>, s2: set<Item>)
    requires s1 <= s2
    ensures Missing(s2, all) <= Missing(s1, all)
  {
    assert all - s1 == (all - s2) + (all * (s2 - s1));
  }

  class StageTable {
    var units: Units
    var ids: map<nat, JobRef>
    ghost var items: set<Item>

    /** `base` are the ids of the live table, `all` what may still be staged. */
    ghost predicate Valid(ja: JobAllocData, mode: JobMode, base: set<nat>, all: set<Item>)
      reads this, ja
    {
      && StageFine(units, ids, mode) && ja.Valid() && ids.Keys !! base && ids.Keys + base <= ja.ids
      && items == ItemsOf(units) && Room(ja.ids, items, all)
    }

    constructor ()
      ensures units == map[] && ids == map[] && items == {}
    {
      units, ids, items := map[], map[], {};
    }

    method Clear()
      modifies this
      ensures units == map[] && ids == map[] && items == {}
    {
      ids, units, items := map[], map[], {};
    }

    /** A job is added only if its unit has none of that kind yet. */
    method RecordSuspend(ja: JobAllocData, u: UnitId, k: JobKind, mode: JobMode, ghost base: set<nat>, ghost all: set<Item>)
      returns (isNew: bool)
      requires Valid(ja, mode, base, all) && Item(u, k) in all && IsBasic(k)
      modifies this, ja
      ensures Valid(ja, mode, base, all) && Extends(old(units), units)
      ensures items == old(items) + {Item(u, k)} && (isNew <==> Item(u, k) !in old(items))
      ensures isNew ==> Missing(items, all) < Missing(old(items), all)
    {
      assert Item(u, k) in items <==> u in units && k in units[u];
      isNew := !(u in units && k in units[u]);
      if isNew {
        MissingShrinks(all, items, Item(u, k));
        var id := ja.AllocId();
        WithJobFine(units, ids, mode, id, u, k);
        units := WithJob(units, NewJob(id, u, k, mode));
        ids := ids[id := JobRef(u, k)];
        items := items + {Item(u, k)};
      }
    }

    /** Stage the mapped job and, if it is new, everything it asks for, and so on. */
    method Expand(db: Db, active: Active, ja: JobAllocData, u: UnitId, kind: JobKind, mode: JobMode, ghost base: set<nat>, ghost all: set<Item>)
      requires Valid(ja, mode, base, all) && Closed(db, active, all) && Mapped(active, u, kind) in all
      modifies this, ja
      ensures Valid(ja, mode, base, all) && ExpandedTo(db, active, mode, Mapped(active, u, kind), old(items), items)
      decreases Missing(items, all), 0
    {
      var it := Mapped(active, u, kind);
      MappedBasic(active, u, kind);
      ghost var s0 := items;
      var isNew := RecordSuspend(ja, it.unit, it.kind, mode, base, all);
      if IsExpand(it.kind, isNew, mode) {
        ExpandNew(db, active, ja, it, mode, base, all);
        NewExpanded(db, active, mode, it, s0, items);
      } else {
        NotExpanded(db, active, mode, it, s0, items);
      }
    }

    /** Everything the job asks for, dependency by dependency. */
    method ExpandNew(db: Db, active: Active, ja: JobAllocData, it: Item, mode: JobMode, ghost base: set<nat>, ghost all: set<Item>)
      requires Valid(ja, mode, base, all) && Expands(mode) && Closed(db, active, all) && it in all
      modifies this, ja
      ensures Valid(ja, mode, base, all) && Grown(db, active, {it}, old(items), items)
      ensures Answered(db, active, {it}, items)
      decreases Missing(items, all), 2
    {
      ghost var s0 := items;
      var wishes := Wishes(it.kind);
      var i := 0;
      while i < |wishes|
        invariant i <= |wishes| && Valid(ja, mode, base, all) && Grown(db, active, {it}, s0, items)
        invariant forall j :: 0 <= j < i ==> Granted(db, active, it, wishes[j], items)
      {
        ghost var s1 := items;
        MissingMonotone(all, s0, s1);
        WishIsAsked(db, it, i);
        ExpandEach(db, active, ja, it, Gets(db, it.unit, wishes[i].atom), wishes[i].kind, mode, base, all);
        GrownSteps(db, active, {it}, s0, s1, items);
        GrantedStill(db, active, it, wishes, i, s1, items);
        i := i + 1;
      }
      AllGranted(db, active, it, items);
    }

    /** The same job is asked of every unit in turn. */
    method ExpandEach(db: Db, active: Active, ja: JobAllocData, ghost it: Item, others: seq<UnitId>, kind: JobKind, mode: JobMode,
                      ghost base: set<nat>, ghost all: set<Item>)
      requires Valid(ja, mode, base, all) && Expands(mode) && Closed(db, active, all) && it in all
      requires forall j :: 0 <= j < |others| ==> Asks(db, it, others[j], kind)
      modifies this, ja
      ensures Valid(ja, mode, base, all) && Grown(db, active, {it}, old(items), items)
      ensures AllStaged(active, others, kind, items)
      decreases Missing(items, all), 1
    {
      ghost var s0 := items;
      var i := 0;
      while i < |others|
        invariant i <= |others| && Valid(ja, mode, base, all) && Grown(db, active, {it}, s0, items)
        invariant AllStaged(active, others[..i], kind, items)
      {
        ghost var s1 := items;
        MissingMonotone(all, s0, s1);
        AskedWithin(db, active, it, others[i], kind, all);
        Expand(db, active, ja, others[i], kind, mode, base, all);
        GrownForSteps(db, active, it, others[i], kind, s0, s1, items);
        OneMoreStaged(active, others, i, kind, s1, items);
        i := i + 1;
      }
      assert others[..i] == others;
    }

    /** The whole request, into an empty table: the least set closed under the rules, or
        the requested job alone. */
    method ExpandRoot(db: Db, active: Active, ja: JobAllocData, u: UnitId, kind: JobKind, mode: JobMode, ghost base: set<nat>, ghost all: set<Item>)
      requires Valid(ja, mode, base, all) && Closed(db, active, all) && Mapped(active, u, kind) in all && items == {}
      modifies this, ja
      ensures Valid(ja, mode, base, all)
      ensures RootStaged(active, u, kind, items)
      ensures if mode.IgnoreDependencies? || mode.IgnoreRequirements? then items == {Mapped(active, u, kind)}
              else LeastOver(db, active, {Mapped(active, u, kind)}, items)
    {
      RootMeaning(active, u, kind, {Mapped(active, u, kind)});
      Expand(db, active, ja, u, kind, mode, base, all);
      if Expands(mode) {
        NothingLeast(db, active);
        GrownLeast(db, active, {}, Mapped(active, u, kind), {}, items);
        assert {} + {Mapped(active, u, kind)} == {Mapped(active, u, kind)};
      }
    }

    /** The test of the original, whose sense is the opposite of its name. */
    method IsUnitEmpty(ja: JobAllocData, u: UnitId, mode: JobMode, ghost base: set<nat>, ghost all: set<Item>) returns (b: bool)
      requires Valid(ja, mode, base, all)
      ensures b <==> u in UnitsOf(items)
    {
      StagedUnits(units, u);
      b := u in units;
    }

    method IsolateUnit(db: Db, active: Active, ja: JobAllocData, u: UnitId, exempt: set<UnitId>, mode: JobMode, ghost base: set<nat>, ghost all: set<Item>)
      requires Valid(ja, mode, base, all) && mode.Isolate? && Closed(db, active, all) && Item(u, Stop) in all
      modifies this, ja
      ensures Valid(ja, mode, base, all)
      ensures StoppedIf(db, active, u, exempt, old(items), items)
    {
      var empty := IsUnitEmpty(ja, u, mode, base, all);
      if u !in exempt && empty {
        Expand(db, active, ja, u, Stop, mode, base, all);
      }
    }

    /** Isolation stops the units it may affect for which nothing is staged; but the test
        is inverted, so it stops the staged ones. */
    method AffectIsolate(db: Db, active: Active, ja: JobAllocData, registered: seq<UnitId>, exempt: set<UnitId>, mode: JobMode,
                         ghost roots: set<Item>, ghost base: set<nat>, ghost all: set<Item>)
      requires Valid(ja, mode, base, all) && mode.Isolate? && LeastOver(db, active, roots, items)
      requires Closed(db, active, all) && forall i :: 0 <= i < |registered| ==> Item(registered[i], Stop) in all
      modifies this, ja
      ensures Valid(ja, mode, base, all)
      ensures LeastOver(db, active, roots + StopsOf(registered, old(items), exempt), items)
    {
      ghost var s0 := items;
      var i := 0;
      IsolatingNone(db, active, roots, registered, s0, exempt);
      while i < |registered|
        invariant i <= |registered| && Valid(ja, mode, base, all)
        invariant Isolating(db, active, roots, registered[..i], s0, items, exempt)
      {
        IsolateNext(db, active, ja, registered, i, exempt, mode, roots, s0, base, all);
        i := i + 1;
      }
      assert registered[..i] == registered;
    }

    method IsolateNext(db: Db, active: Active, ja: JobAllocData, registered: seq<UnitId>, i: nat, exempt: set<UnitId>, mode: JobMode,
                       ghost roots: set<Item>, ghost s0: set<Item>, ghost base: set<nat>, ghost all: set<Item>)
      requires Valid(ja, mode, base, all) && mode.Isolate? && i < |registered| && Closed(db, active, all) && Item(registered[i], Stop) in all
      requires Isolating(db, active, roots, registered[..i], s0, items, exempt)
      modifies this, ja
      ensures Valid(ja, mode, base, all)
      ensures Isolating(db, active, roots, registered[..i + 1], s0, items, exempt)
    {
      ghost var s1 := items;
      IsolateUnit(db, active, ja, registered[i], exempt, mode, base, all);
      IsolatingStep(db, active, roots, registered, i, s0, s1, items, exempt);
    }

    method StopTrigger(db: Db, active: Active, ja: JobAllocData, u: UnitId, other: UnitId, mode: JobMode, ghost base: set<nat>, ghost all: set<Item>)
      requires Valid(ja, mode, base, all) && mode.Trigger? && Item(u, Stop) in items
      requires Closed(db, active, all) && Item(other, Stop) in all
      modifies this, ja
      ensures Valid(ja, mode, base, all) && Item(u, Stop) in items && Item(other, Stop) in items
      ensures Grown(db, active, {Item(other, Stop)}, old(items), items)
    {
      assert u in UnitsOf(items);
      var empty := IsUnitEmpty(ja, u, mode, base, all);
      if empty {
        Expand(db, active, ja, other, Stop, mode, base, all);
      }
    }

    /** Triggering stops what triggers the unit; the test, applied to the unit itself,
        never holds anything back. */
    method AffectTrigger(db: Db, active: Active, ja: JobAllocData, u: UnitId, mode: JobMode,
                         ghost roots: set<Item>, ghost base: set<nat>, ghost all: set<Item>)
      requires Valid(ja, mode, base, all) && mode.Trigger? && LeastOver(db, active, roots, items) && Item(u, Stop) in items
      requires Closed(db, active, all)
      requires var us := Gets(db, u, AtomTriggeredBy); forall i :: 0 <= i < |us| ==> Item(us[i], Stop) in all
      modifies this, ja
      ensures Valid(ja, mode, base, all)
      ensures StoppedAll(db, active, roots, Gets(db, u, AtomTriggeredBy), items)
    {
      StopOthers(db, active, ja, u, Gets(db, u, AtomTriggeredBy), mode, roots, base, all);
    }

    method StopOthers(db: Db, active: Active, ja: JobAllocData, u: UnitId, others: seq<UnitId>, mode: JobMode,
                      ghost roots: set<Item>, ghost base: set<nat>, ghost all: set<Item>)
      requires Valid(ja, mode, base, all) && mode.Trigger? && LeastOver(db, active, roots, items) && Item(u, Stop) in items
      requires Closed(db, active, all) && forall i :: 0 <= i < |others| ==> Item(others[i], Stop) in all
      modifies this, ja
      ensures Valid(ja, mode, base, all)
      ensures StoppedAll(db, active, roots, others, items)
    {
      var i := 0;
      StoppedNone(db, active, roots, others, items);
      while i < |others|
        invariant i <= |others| && Valid(ja, mode, base, all) && Item(u, Stop) in items
        invariant StoppedAll(db, active, roots, others[..i], items)
      {
        TriggerNext(db, active, ja, u, others, i, mode, roots, base, all);
        i := i + 1;
      }
      assert others[..i] == others;
    }

    method TriggerNext(db: Db, active: Active, ja: JobAllocData, u: UnitId, others: seq<UnitId>, i: nat, mode: JobMode,
                       ghost roots: set<Item>, ghost base: set<nat>, ghost all: set<Item>)
      requires Valid(ja, mode, base, all) && mode.Trigger? && Item(u, Stop) in items && i < |others|
      requires Closed(db, active, all) && Item(others[i], Stop) in all && StoppedAll(db, active, roots, others[..i], items)
      modifies this, ja
      ensures Valid(ja, mode, base, all) && Item(u, Stop) in items
      ensures StoppedAll(db, active, roots, others[..i + 1], items)
    {
      ghost var s1 := items;
      StopTrigger(db, active, ja, u, others[i], mode, base, all);
      OneMoreStop(db, active, roots, others, i, s1, items);
    }
  }

  lemma NothingLeast(db: Db, active: Active)
    ensures LeastOver(db, active, {}, {})
  {
  }

  function UnitsOf(s: set<Item>): set<UnitId> {
    set x | x in s :: x.unit
  }

  lemma StagedUnits(units: Units, u: UnitId)
    requires forall v :: v in units ==> units[v] != map[]
    ensures u in units <==> u in UnitsOf(ItemsOf(units))
  {
    if u in units {
      var k :| k in units[u];
      assert Item(u, k) in ItemsOf(units);
    }
  }

  function StopsFor(us: seq<UnitId>): set<Item> {
    set u | u in us :: Item(u, Stop)
  }

  /** Stops for the units that have something staged and are not exempt. */
  function StopsOf(us: seq<UnitId>, staged: set<Item>, exempt: set<UnitId>): set<Item> {
    set u | u in us && u in UnitsOf(staged) && u !in exempt :: Item(u, Stop)
  }

  predicate OnlyStopsAdded(s0: set<Item>, s1: set<Item>) {
    s0 <= s1 && forall x :: x in s1 && x !in s0 ==> x.kind.Stop?
  }

  lemma OneMoreStop(db: Db, active: Active, roots: set<Item>, us: seq<UnitId>, i: nat, s1: set<Item>, s2: set<Item>)
    requires i < |us| && StoppedAll(db, active, roots, us[..i], s1)
    requires Grown(db, active, {Item(us[i], Stop)}, s1, s2) && Item(us[i], Stop) in s2
    ensures StoppedAll(db, active, roots, us[..i + 1], s2)
  {
    GrownLeast(db, active, roots + StopsFor(us[..i]), Item(us[i], Stop), s1, s2);
    assert us[..i + 1] == us[..i] + [us[i]];
    assert roots + StopsFor(us[..i + 1]) == roots + StopsFor(us[..i]) + {Item(us[i], Stop)};
  }

  /** A stop of the unit is staged, with all it asks for, if anything is staged for it. */
  ghost predicate StoppedIf(db: Db, active: Active, u: UnitId, exempt: set<UnitId>, s1: set<Item>, s2: set<Item>) {
    if u !in exempt && u in UnitsOf(s1) then Grown(db, active, {Item(u, Stop)}, s1, s2) && Item(u, Stop) in s2
    else s2 == s1
  }

  /** The units `us` have been isolated. */
  ghost predicate Isolating(db: Db, active: Active, roots: set<Item>, us: seq<UnitId>, s0: set<Item>, s: set<Item>, exempt: set<UnitId>) {
    LeastOver(db, active, roots + StopsOf(us, s0, exempt), s) && OnlyStopsAdded(s0, s)
  }

  lemma IsolatingNone(db: Db, active: Active, roots: set<Item>, us: seq<UnitId>, s0: set<Item>, exempt: set<UnitId>)
    requires LeastOver(db, active, roots, s0)
    ensures Isolating(db, active, roots, us[..0], s0, s0, exempt)
  {
    assert roots + StopsOf(us[..0], s0, exempt) == roots;
  }

  lemma IsolatingStep(db: Db, active: Active, roots: set<Item>, us: seq<UnitId>, i: nat, s0: set<Item>, s1: set<Item>, s2: set<Item>, exempt: set<UnitId>)
    requires i < |us| && Isolating(db, active, roots, us[..i], s0, s1, exempt)
    requires StoppedIf(db, active, us[i], exempt, s1, s2)
    ensures Isolating(db, active, roots, us[..i + 1], s0, s2, exempt)
  {
    if us[i] !in exempt && us[i] in UnitsOf(s1) {
      StopStaged(db, active, roots, us, i, s0, s1, s2, exempt);
    } else {
      NoStop(us, i, s0, s1, exempt);
    }
  }

  lemma NoStop(us: seq<UnitId>, i: nat, s0: set<Item>, s1: set<Item>, exempt: set<UnitId>)
    requires i < |us| && s0 <= s1 && (us[i] in exempt || us[i] !in UnitsOf(s1))
    ensures StopsOf(us[..i + 1], s0, exempt) == StopsOf(us[..i], s0, exempt)
  {
    assert us[..i + 1] == us[..i] + [us[i]];
    assert us[i] in UnitsOf(s0) ==> us[i] in UnitsOf(s1);
  }

  lemma StopStaged(db: Db, active: Active, roots: set<Item>, us: seq<UnitId>, i: nat, s0: set<Item>, s1: set<Item>, s2: set<Item>, exempt: set<UnitId>)
    requires i < |us| && us[i] !in exempt && us[i] in UnitsOf(s1) && OnlyStopsAdded(s0, s1)
    requires LeastOver(db, active, roots + StopsOf(us[..i], s0, exempt), s1)
    requires Grown(db, active, {Item(us[i], Stop)}, s1, s2) && Item(us[i], Stop) in s2
    ensures LeastOver(db, active, roots + StopsOf(us[..i + 1], s0, exempt), s2) && OnlyStopsAdded(s0, s2)
  {
    var roots1 := roots + StopsOf(us[..i], s0, exempt);
    forall x | x in s2 && x !in s0 ensures x.kind.Stop? {
      if x !in s1 {
        StopsOnly(db, active, s1, s2, us[i], x);
      }
    }
    GrownLeast(db, active, roots1, Item(us[i], Stop), s1, s2);
    assert us[..i + 1] == us[..i] + [us[i]];
    if us[i] in UnitsOf(s0) {
      assert roots1 + {Item(us[i], Stop)} == roots + StopsOf(us[..i + 1], s0, exempt);
    } else {
      assert StopsOf(us[..i + 1], s0, exempt) == StopsOf(us[..i], s0, exempt);
      StagedAlready(db, active, roots1, Item(us[i], Stop), s1, s2);
    }
  }

  lemma StagedAlready(db: Db, active: Active, roots: set<Item>, x: Item, s1: set<Item>, s2: set<Item>)
    requires x in s1 && LeastOver(db, active, roots, s1) && LeastOver(db, active, roots + {x}, s2)
    ensures s1 == s2
  {
    assert roots + {x} <= s1;
    assert roots <= roots + {x};
  }

  /** Only a new job is expanded, and only in a mode that expands. */
  predicate IsExpand(k: JobKind, isNew: bool, mode: JobMode) {
    !k.Nop? && isNew && mode != IgnoreDependencies && mode != IgnoreRequirements
  }

  /** The dependencies a job is expanded along, and the job asked of each unit found. */
  datatype Wish = Wish(atom: Atom, kind: JobKind)

  const START_WISHES := [
    Wish(PullInStart, Start), Wish(PullInStartIgnored, Start), Wish(PullInVerify, Verify),
    Wish(PullInStop, Stop), Wish(PullInStopIgnored, Stop)]

  function Wishes(k: JobKind): seq<Wish> {
    match k
    case Start => START_WISHES
    case Stop => [Wish(PropagateStop, Stop)]
    case Reload => [Wish(PropagateReload, TryReload)]
    case Restart => START_WISHES + [Wish(PropagateRestart, TryRestart)]
    case _ => []
  }

  predicate Granted(db: Db, active: Active, it: Item, w: Wish, s: set<Item>) {
    AllStaged(active, Gets(db, it.unit, w.atom), w.kind, s)
  }

  predicate AllStaged(active: Active, others: seq<UnitId>, k: JobKind, s: set<Item>) {
    forall j :: 0 <= j < |others| ==> Mapped(active, others[j], k) in s
  }

  lemma OneMoreStaged(active: Active, others: seq<UnitId>, i: nat, k: JobKind, s1: set<Item>, s2: set<Item>)
    requires i < |others| && AllStaged(active, others[..i], k, s1)
    requires s1 <= s2 && Mapped(active, others[i], k) in s2
    ensures AllStaged(active, others[..i + 1], k, s2)
  {
    forall j | 0 <= j < i + 1 ensures Mapped(active, others[j], k) in s2 {
      if j < i {
        assert Mapped(active, others[..i][j], k) in s1;
      }
    }
  }

  lemma WishIsAsked(db: Db, it: Item, i: nat)
    requires i < |Wishes(it.kind)|
    ensures
      var others := Gets(db, it.unit, Wishes(it.kind)[i].atom);
      forall j :: 0 <= j < |others| ==> Asks(db, it, others[j], Wishes(it.kind)[i].kind)
  {
  }

  lemma GrantedStill(db: Db, active: Active, it: Item, wishes: seq<Wish>, i: nat, s1: set<Item>, s2: set<Item>)
    requires i < |wishes| && s1 <= s2 && forall j :: 0 <= j < i ==> Granted(db, active, it, wishes[j], s1)
    requires AllStaged(active, Gets(db, it.unit, wishes[i].atom), wishes[i].kind, s2)
    ensures forall j :: 0 <= j < i + 1 ==> Granted(db, active, it, wishes[j], s2)
  {
    forall j | 0 <= j < i + 1 ensures Granted(db, active, it, wishes[j], s2) {
      assert j < i ==> Granted(db, active, it, wishes[j], s1);
    }
  }

  lemma AskedIsWish(db: Db, it: Item, v: UnitId, k: JobKind) returns (i: nat)
    requires Asks(db, it, v, k)
    ensures i < |Wishes(it.kind)| && Wishes(it.kind)[i].kind == k && v in Gets(db, it.unit, Wishes(it.kind)[i].atom)
  {
    if k.Start? {
      i := if v in Gets(db, it.unit, PullInStart) then 0 else 1;
    } else if k.Verify? {
      i := 2;
    } else if k.Stop? && !it.kind.Stop? {
      i := if v in Gets(db, it.unit, PullInStop) then 3 else 4;
    } else {
      i := if it.kind.Restart? then 5 else 0;
    }
  }

  lemma AllGranted(db: Db, active: Active, it: Item, s: set<Item>)
    requires forall j :: 0 <= j < |Wishes(it.kind)| ==> Granted(db, active, it, Wishes(it.kind)[j], s)
    ensures Answered(db, active, {it}, s)
  {
    forall a, v, k | a in {it} && Asks(db, a, v, k) ensures Mapped(active, v, k) in s {
      var i := AskedIsWish(db, it, v, k);
      assert Granted(db, active, it, Wishes(it.kind)[i], s);
    }
  }

  lemma AskedWithin(db: Db, active: Active, it: Item, v: UnitId, k: JobKind, all: set<Item>)
    requires Closed(db, active, all) && it in all && Asks(db, it, v, k)
    ensures Mapped(active, v, k) in all
  {
  }

  lemma GrownForSteps(db: Db, active: Active, it: Item, v: UnitId, k: JobKind, s0: set<Item>, s1: set<Item>, s2: set<Item>)
    requires Asks(db, it, v, k) && Grown(db, active, {it}, s0, s1) && Grown(db, active, {Mapped(active, v, k)}, s1, s2)
    ensures Grown(db, active, {it}, s0, s2)
  {
    GrownFor(db, active, it, v, k, s1, s2);
    GrownSteps(db, active, {it}, s0, s1, s2);
  }

  /** The job is staged; in a mode that expands, so is all it asks for. */
  ghost predicate ExpandedTo(db: Db, active: Active, mode: JobMode, it: Item, before: set<Item>, after: set<Item>) {
    if Expands(mode) then it in after && Grown(db, active, {it}, before, after)
    else after == before + {it}
  }

  lemma NewExpanded(db: Db, active: Active, mode: JobMode, it: Item, before: set<Item>, after: set<Item>)
    requires Grown(db, active, {it}, before + {it}, after) && Answered(db, active, {it}, after) && Expands(mode)
    ensures ExpandedTo(db, active, mode, it, before, after)
  {
    GrownWith(db, active, it, before, after);
    assert it in before + {it};
  }

  lemma NotExpanded(db: Db, active: Active, mode: JobMode, it: Item, before: set<Item>, after: set<Item>)
    requires after == before + {it} && (it in before || it.kind.Nop? || !Expands(mode))
    ensures ExpandedTo(db, active, mode, it, before, after)
  {
  }

  /** The units that trigger the unit have been stopped, as far as `us`. */
  ghost predicate StoppedAll(db: Db, active: Active, roots: set<Item>, us: seq<UnitId>, s: set<Item>) {
    LeastOver(db, active, roots + StopsFor(us), s)
  }

  lemma StoppedNone(db: Db, active: Active, roots: set<Item>, us: seq<UnitId>, s: set<Item>)
    requires LeastOver(db, active, roots, s)
    ensures StoppedAll(db, active, roots, us[..0], s)
  {
    assert roots + StopsFor(us[..0]) == roots;
  }
}
