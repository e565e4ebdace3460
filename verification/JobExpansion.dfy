/** What a request has to bring about: the least set of jobs closed under the pull-in
    and propagation rules of the dependencies
    (process1/src/manager/unit/job/job_transaction.rs). */
module JobExpansion {
  import opened UnitBase
  import opened JobEntry

  /** A job to be staged, its kind already mapped to a basic one. */
  datatype Item = Item(unit: UnitId, kind: JobKind)

  type Active = map<UnitId, ActiveState>

  function StateOf(active: Active, u: UnitId): ActiveState {
    if u in active then active[u] else UnitInActive
  }

  /** A compound kind becomes a basic one by the state its unit is in. */
  function Mapped(active: Active, u: UnitId, k: JobKind): Item {
    Item(u, MergeUnit(k, StateOf(active, u)))
  }

  /** Starting (or restarting) `u` asks for a job `k` of `v`. */
  predicate AsksStart(db: Db, u: UnitId, v: UnitId, k: JobKind) {
    (k.Start? && (v in Gets(db, u, PullInStart) || v in Gets(db, u, PullInStartIgnored))) ||
    (k.Verify? && v in Gets(db, u, PullInVerify)) ||
    (k.Stop? && (v in Gets(db, u, PullInStop) || v in Gets(db, u, PullInStopIgnored)))
  }

  /** The staged job `a` asks for a job `k` of `v`. */
  predicate Asks(db: Db, a: Item, v: UnitId, k: JobKind) {
    match a.kind
    case Start => AsksStart(db, a.unit, v, k)
    case Restart => AsksStart(db, a.unit, v, k) || (k.TryRestart? && v in Gets(db, a.unit, PropagateRestart))
    case Stop => k.Stop? && v in Gets(db, a.unit, PropagateStop)
    case Reload => k.TryReload? && v in Gets(db, a.unit, PropagateReload)
    case _ => false
  }

  ghost predicate Closed(db: Db, active: Active, s: set<Item>) {
    forall a, v, k {:trigger Asks(db, a, v, k)} :: a in s && Asks(db, a, v, k) ==> Mapped(active, v, k) in s
  }

  /** Everything the items of `s` ask for is in `t`. */
  ghost predicate Answered(db: Db, active: Active, s: set<Item>, t: set<Item>) {
    forall a, v, k {:trigger Asks(db, a, v, k)} :: a in s && Asks(db, a, v, k) ==> Mapped(active, v, k) in t
  }

  ghost predicate LeastOver(db: Db, active: Active, roots: set<Item>, s: set<Item>) {
    && roots <= s && Closed(db, active, s)
    && (forall c {:trigger Closed(db, active, c)} :: roots <= c && Closed(db, active, c) ==> s <= c)
  }

  /** Modes that leave dependencies or requirements aside expand nothing. */
  predicate Expands(mode: JobMode) {
    !mode.IgnoreDependencies? && !mode.IgnoreRequirements?
  }

  // ----- one least closed set, whatever the order of events -----

  /** Two stores that give the same answers, perhaps in another order. */
  ghost predicate SameAnswers(db1: Db, db2: Db) {
    forall u: UnitId, v: UnitId, a: Atom :: v in Gets(db1, u, a) <==> v in Gets(db2, u, a)
  }

  lemma SameAsks(db1: Db, db2: Db, a: Item, v: UnitId, k: JobKind)
    requires SameAnswers(db1, db2)
    ensures Asks(db1, a, v, k) <==> Asks(db2, a, v, k)
  {
  }

  lemma SameClosed(db1: Db, db2: Db, active: Active, s: set<Item>)
    requires SameAnswers(db1, db2) && Closed(db1, active, s)
    ensures Closed(db2, active, s)
  {
    forall a, v, k | a in s && Asks(db2, a, v, k) ensures Mapped(active, v, k) in s {
      SameAsks(db1, db2, a, v, k);
    }
  }

  /** What is staged does not depend on the order in which the hash maps iterate. */
  lemma ExpansionOrderIrrelevant(db1: Db, db2: Db, active: Active, roots: set<Item>, s1: set<Item>, s2: set<Item>)
    requires SameAnswers(db1, db2)
    requires LeastOver(db1, active, roots, s1) && LeastOver(db2, active, roots, s2)
    ensures s1 == s2
  {
    SameClosed(db1, db2, active, s1);
    SameClosed(db2, db1, active, s2);
  }

  // ----- the closed set by its paths -----

  /** One job asks for the other. */
  ghost predicate Pulls(db: Db, active: Active, a: Item, b: Item) {
    exists k :: Asks(db, a, b.unit, k) && Mapped(active, b.unit, k) == b
  }

  ghost predicate IsPath(db: Db, active: Active, p: seq<Item>) {
    p != [] && forall i, j :: 0 <= i < |p| && j == i + 1 && j < |p| ==> Pulls(db, active, p[i], p[j])
  }

  ghost predicate Reaches(db: Db, active: Active, root: Item, x: Item) {
    exists p :: IsPath(db, active, p) && p[0] == root && p[|p| - 1] == x
  }

  lemma {:induction false} PathStays(db: Db, active: Active, s: set<Item>, p: seq<Item>)
    requires Closed(db, active, s) && IsPath(db, active, p) && p[0] in s
    ensures p[|p| - 1] in s
    decreases |p|
  {
    if |p| > 1 {
      var q := p[..|p| - 1];
      assert forall i, j :: 0 <= i < |q| && j == i + 1 && j < |q| ==> q[i] == p[i] && q[j] == p[j];
      PathStays(db, active, s, q);
      assert Pulls(db, active, p[|p| - 2], p[|p| - 1]);
    }
  }

  lemma ReachesFurther(db: Db, active: Active, root: Item, a: Item, v: UnitId, k: JobKind)
    requires Reaches(db, active, root, a) && Asks(db, a, v, k)
    ensures Reaches(db, active, root, Mapped(active, v, k))
  {
    var p :| IsPath(db, active, p) && p[0] == root && p[|p| - 1] == a;
    var q := p + [Mapped(active, v, k)];
    assert Pulls(db, active, a, Mapped(active, v, k));
    assert IsPath(db, active, q) by {
      forall i, j | 0 <= i < |q| && j == i + 1 && j < |q| ensures Pulls(db, active, q[i], q[j]) {
        if j < |p| {
          assert Pulls(db, active, p[i], p[j]);
        }
      }
    }
    assert q[0] == root && q[|q| - 1] == Mapped(active, v, k);
  }

  lemma ReachesSelf(db: Db, active: Active, x: Item)
    ensures Reaches(db, active, x, x)
  {
    assert IsPath(db, active, [x]) && [x][0] == x && [x][|[x]| - 1] == x;
  }

  /** Something among the roots leads to the job. */
  ghost predicate ReachedFrom(db: Db, active: Active, roots: set<Item>, x: Item) {
    exists r :: r in roots && Reaches(db, active, r, x)
  }

  /** The least closed set is what can be reached from the roots, step by step. */
  lemma LeastIsReachable(db: Db, active: Active, roots: set<Item>, s: set<Item>, x: Item)
    requires LeastOver(db, active, roots, s)
    ensures x in s <==> ReachedFrom(db, active, roots, x)
  {
    if ReachedFrom(db, active, roots, x) {
      var r :| r in roots && Reaches(db, active, r, x);
      var p :| IsPath(db, active, p) && p[0] == r && p[|p| - 1] == x;
      PathStays(db, active, s, p);
    }
    ReachedClosed(db, active, roots, s);
  }

  lemma ReachedClosed(db: Db, active: Active, roots: set<Item>, s: set<Item>)
    requires LeastOver(db, active, roots, s)
    ensures forall x :: x in s ==> ReachedFrom(db, active, roots, x)
  {
    var c := set y | y in s && ReachedFrom(db, active, roots, y);
    forall a, v, k | a in c && Asks(db, a, v, k) ensures Mapped(active, v, k) in c {
      ReachedFurther(db, active, roots, a, v, k);
    }
    forall r | r in roots ensures r in c {
      ReachesSelf(db, active, r);
    }
    assert Closed(db, active, c) && s <= c;
  }

  lemma ReachedFurther(db: Db, active: Active, roots: set<Item>, a: Item, v: UnitId, k: JobKind)
    requires ReachedFrom(db, active, roots, a) && Asks(db, a, v, k)
    ensures ReachedFrom(db, active, roots, Mapped(active, v, k))
  {
    var r :| r in roots && Reaches(db, active, r, a);
    ReachesFurther(db, active, r, a, v, k);
  }

  // ----- a finite closed set to expand within -----

  const BASIC_KINDS := {Start, Stop, Reload, Restart, Verify, Nop}

  lemma MappedBasic(active: Active, v: UnitId, k: JobKind)
    ensures Mapped(active, v, k).kind in BASIC_KINDS && IsBasic(Mapped(active, v, k).kind)
  {
  }

  function Mentioned(db: Db): set<UnitId> {
    set p, v | p in db && v in db[p] :: v
  }

  function AllItems(db: Db, units: set<UnitId>): set<Item> {
    set u, k | u in Mentioned(db) + units && k in BASIC_KINDS :: Item(u, k)
  }

  lemma AllItemsClosed(db: Db, active: Active, units: set<UnitId>)
    ensures Closed(db, active, AllItems(db, units))
  {
    forall a, v, k | a in AllItems(db, units) && Asks(db, a, v, k) ensures Mapped(active, v, k) in AllItems(db, units) {
      MappedBasic(active, v, k);
      AskedMentioned(db, a, v, k);
    }
  }

  lemma AskedMentioned(db: Db, a: Item, v: UnitId, k: JobKind)
    requires Asks(db, a, v, k)
    ensures v in Mentioned(db)
  {
    assert forall atom: Atom :: v in Gets(db, a.unit, atom) ==> (a.unit, atom) in db && v in db[(a.unit, atom)];
  }

  // ----- growing towards it -----

  /** From `before` to `after`: only what `roots` call for was added, and everything the
      added items ask for is there. */
  ghost predicate Grown(db: Db, active: Active, roots: set<Item>, before: set<Item>, after: set<Item>) {
    && before <= after
    && Answered(db, active, after - before, after)
    && (forall c {:trigger Closed(db, active, c)} :: roots <= c && Closed(db, active, c) ==> after - before <= c)
  }

  lemma GrownSteps(db: Db, active: Active, roots: set<Item>, s1: set<Item>, s2: set<Item>, s3: set<Item>)
    requires Grown(db, active, roots, s1, s2) && Grown(db, active, roots, s2, s3)
    ensures Grown(db, active, roots, s1, s3)
  {
    forall a, v, k | a in s3 - s1 && Asks(db, a, v, k) ensures Mapped(active, v, k) in s3 {
      assert a in s2 - s1 || a in s3 - s2;
    }
    forall c | roots <= c && Closed(db, active, c) ensures s3 - s1 <= c {
      assert s3 - s1 <= (s2 - s1) + (s3 - s2);
    }
  }

  /** What a job asks for is called for by the job. */
  lemma GrownFor(db: Db, active: Active, a: Item, v: UnitId, k: JobKind, s1: set<Item>, s2: set<Item>)
    requires Asks(db, a, v, k) && Grown(db, active, {Mapped(active, v, k)}, s1, s2)
    ensures Grown(db, active, {a}, s1, s2)
  {
    forall c | {a} <= c && Closed(db, active, c) ensures s2 - s1 <= c {
      assert a in c && Mapped(active, v, k) in c;
    }
  }

  /** The job itself comes first; then whatever it asks for. */
  lemma GrownWith(db: Db, active: Active, a: Item, s1: set<Item>, s2: set<Item>)
    requires Grown(db, active, {a}, s1 + {a}, s2) && Answered(db, active, {a}, s2)
    ensures Grown(db, active, {a}, s1, s2)
  {
    forall x, v, k | x in s2 - s1 && Asks(db, x, v, k) ensures Mapped(active, v, k) in s2 {
      assert x == a || x in s2 - (s1 + {a});
    }
    forall c | {a} <= c && Closed(db, active, c) ensures s2 - s1 <= c {
      assert s2 - s1 <= (s2 - (s1 + {a})) + {a};
    }
  }

  /** Growing a least closed set by a root gives the least closed set over both. */
  lemma GrownLeast(db: Db, active: Active, roots: set<Item>, a: Item, s1: set<Item>, s2: set<Item>)
    requires LeastOver(db, active, roots, s1) && Grown(db, active, {a}, s1, s2) && a in s2
    ensures LeastOver(db, active, roots + {a}, s2)
  {
    forall x, v, k | x in s2 && Asks(db, x, v, k) ensures Mapped(active, v, k) in s2 {
      assert x in s1 || x in s2 - s1;
    }
    forall c | roots + {a} <= c && Closed(db, active, c) ensures s2 <= c {
      assert a in roots + {a};
      assert roots <= c && {a} <= c;
      assert s2 <= s1 + (s2 - s1);
    }
  }

  /** A stop only calls for stops. */
  lemma StopsOnly(db: Db, active: Active, s1: set<Item>, s2: set<Item>, u: UnitId, x: Item)
    requires Grown(db, active, {Item(u, Stop)}, s1, s2) && x in s2 - s1
    ensures x.kind.Stop?
  {
    var all := AllItems(db, {u});
    var c := set y | y in all && y.kind.Stop?;
    AllItemsClosed(db, active, {u});
    forall a, v, k | a in c && Asks(db, a, v, k) ensures Mapped(active, v, k) in c {
    }
    assert Item(u, Stop) in c;
    assert Closed(db, active, c) && s2 - s1 <= c;
  }
}
