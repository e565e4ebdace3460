/** The counters against the table they count: what every operation of the table does to
    the numbers of live jobs, and exactly when a commit drives a counter below zero. */
module JobCounts {
  import opened Outcomes
  import opened UnitBase
  import opened JobEntry
  import opened JobTableState
  import opened JobStat

  type Ids = map<nat, JobRef>

  function OfKind(m: Ids, k: JobKind): set<nat> {
    set id | id in m && m[id].kind == k
  }

  /** How many of the jobs are of the kind. */
  function CountOf(m: Ids, k: JobKind): nat {
    |OfKind(m, k)|
  }

  function Among(m: Ids, s: set<nat>): Ids {
    map id | id in m && id in s :: m[id]
  }

  lemma CountSplit(m: Ids, s: set<nat>, k: JobKind)
    ensures CountOf(m, k) == CountOf(m - s, k) + CountOf(Among(m, s), k)
  {
    assert OfKind(m, k) == OfKind(m - s, k) + OfKind(Among(m, s), k);
  }

  lemma CountUnion(a: Ids, b: Ids, k: JobKind)
    requires a.Keys !! b.Keys
    ensures CountOf(a + b, k) == CountOf(a, k) + CountOf(b, k)
  {
    OfKindUnion(a, b, k);
  }

  lemma OfKindUnion(a: Ids, b: Ids, k: JobKind)
    requires a.Keys !! b.Keys
    ensures OfKind(a + b, k) == OfKind(a, k) + OfKind(b, k) && OfKind(a, k) !! OfKind(b, k)
  {
    var ab := a + b;
    forall id ensures id in OfKind(ab, k) <==> id in OfKind(a, k) || id in OfKind(b, k) {
      assert id in ab <==> id in a || id in b;
    }
  }

  lemma CountZero(m: Ids, k: JobKind)
    ensures CountOf(m, k) == 0 <==> forall id :: id in m ==> m[id].kind != k
  {
    if CountOf(m, k) != 0 {
      var id :| id in OfKind(m, k);
    } else {
      assert forall id :: id in m && m[id].kind == k ==> id in OfKind(m, k);
    }
  }

  // ----- a commit -----

  /** With right counters before, adding the additions and taking the deletions off makes
      them right again. */
  lemma CommitConserves(ids: Ids, adds: Ids, gone: set<nat>, k: JobKind)
    requires ids.Keys !! adds.Keys
    ensures CountOf(ids + adds - gone, k) == CountOf(ids, k) + CountOf(adds, k) - CountOf(Among(ids + adds, gone), k)
  {
    CountUnion(ids, adds, k);
    CountSplit(ids + adds, gone, k);
  }

  lemma CommitCounts(t: Tab, s: Stage, env: CommitEnv, order: seq<UnitId>, k: JobKind)
    requires Commit(t, s, env, order).Ok? && Commit(t, s, env, order).value.Committed?
    ensures
      var (t', ch) := (Commit(t, s, env, order).value.tab, Commit(t, s, env, order).value.changes);
      CountOf(t'.ids, k) == CountOf(t.ids, k) + CountOf(ch.adds, k) - CountOf(ch.dels, k)
  {
    var recs := StageAll(t.recs, s, env).value;
    CommitConserves(t.ids, AddedIds(t.recs, s, env), DroppedIds(t.recs, s, env) + MergedIds(recs, env), k);
  }

  /** But the deletions are taken off first. That goes below zero exactly when more jobs
      of the kind are added and merged away by this very commit than live jobs of the
      kind stay. */
  lemma UnderflowIff(ids: Ids, adds: Ids, gone: set<nat>, k: JobKind)
    requires ids.Keys !! adds.Keys
    ensures CountOf(Among(ids + adds, gone), k) > CountOf(ids, k) <==> CountOf(Among(adds, gone), k) > CountOf(ids - gone, k)
  {
    CountSplit(ids, gone, k);
    CountUnion(Among(ids, gone), Among(adds, gone), k);
    assert Among(ids + adds, gone) == Among(ids, gone) + Among(adds, gone);
  }
}
