/** The write-back cache of the reliability store, over tables that are flushed together in
    one transaction (process1/src/manager/reliability.rs). */
module Reliability {
  type Name = string

  // ----- one table, on values -----

  /** A table's memory: its cache, and what has not been flushed. */
  datatype Tbl<K, V> = Tbl(ignore: bool, cache: map<K, V>, add: map<K, V>, del: set<K>)

  function Fresh<K, V>(): Tbl<K, V> {
    Tbl(false, map[], map[], {})
  }

  function Put<K, V>(t: Tbl<K, V>, k: K, v: V): Tbl<K, V> {
    if t.ignore then t
    else t.(cache := t.cache[k := v], add := t.add[k := v], del := t.del - {k})
  }

  function Drop<K, V>(t: Tbl<K, V>, k: K): Tbl<K, V> {
    if t.ignore then t
    else t.(cache := t.cache - {k}, add := t.add - {k}, del := t.del + {k})
  }

  /** What the store holds after the additions are put and the deletions deleted. */
  function Flushed<K, V>(t: Tbl<K, V>, store: map<K, V>): map<K, V> {
    (store + t.add) - t.del
  }

  function Clean<K, V>(t: Tbl<K, V>): Tbl<K, V> {
    t.(add := map[], del := {})
  }

  function Loaded<K, V>(t: Tbl<K, V>, store: map<K, V>): Tbl<K, V> {
    t.(cache := store, add := map[], del := {})
  }

  /** The cache is the store without the deletions, overridden by the additions; nothing is
      both to be added and to be deleted. */
  ghost predicate Synced<K, V>(t: Tbl<K, V>, store: map<K, V>) {
    t.add.Keys !! t.del && t.cache == (store - t.del) + t.add
  }

  lemma PutSynced<K, V>(t: Tbl<K, V>, store: map<K, V>, k: K, v: V)
    requires Synced(t, store)
    ensures Synced(Put(t, k, v), store)
  {
    var t' := Put(t, k, v);
    assert t'.cache == (store - t'.del) + t'.add;
  }

  lemma DropSynced<K, V>(t: Tbl<K, V>, store: map<K, V>, k: K)
    requires Synced(t, store)
    ensures Synced(Drop(t, k), store)
  {
    var t' := Drop(t, k);
    assert t'.cache == (store - t'.del) + t'.add;
  }

  /** A flush makes the store equal to the cache. */
  lemma FlushSynced<K, V>(t: Tbl<K, V>, store: map<K, V>)
    requires Synced(t, store)
    ensures Flushed(t, store) == t.cache && Synced(Clean(t), Flushed(t, store))
  {
  }

  lemma LoadSynced<K, V>(t: Tbl<K, V>, store: map<K, V>)
    ensures Loaded(t, store).cache == store && Synced(Loaded(t, store), store)
  {
  }

  /** A fresh table is synced exactly over an empty store: after a restart it must be loaded
      before it is used. */
  lemma FreshSyncedIff<K, V>(store: map<K, V>)
    ensures Synced(Fresh(), store) <==> store == map[]
  {
    var t: Tbl<K, V> := Fresh();
    assert (store - t.del) + t.add == store;
  }

  // ----- all tables of the environment, over runs -----

  /** The committed store, and the memory of the registered tables. */
  datatype Sys<K, V> = Sys(store: map<Name, map<K, V>>, tables: map<Name, Tbl<K, V>>)

  datatype SysOp<K, V> =
    | SysPut(name: Name, k: K, v: V)
    | SysDrop(name: Name, k: K)
    | SysIgnore(on: bool)
    | SysCommit
    | SysImport
    | SysCrash      // at any moment, also in the middle of a commit

  function Caches<K, V>(s: Sys<K, V>): map<Name, map<K, V>> {
    map n | n in s.tables :: s.tables[n].cache
  }

  predicate Aligned<K, V>(s: Sys<K, V>) {
    s.store.Keys == s.tables.Keys
  }

  /** A crash loses the memory of all tables, and a transaction that is not committed. */
  function Step<K, V>(s: Sys<K, V>, op: SysOp<K, V>): Sys<K, V>
    requires Aligned(s)
  {
    match op
    case SysPut(n, k, v) => if n in s.tables then s.(tables := s.tables[n := Put(s.tables[n], k, v)]) else s
    case SysDrop(n, k) => if n in s.tables then s.(tables := s.tables[n := Drop(s.tables[n], k)]) else s
    case SysIgnore(on) => s.(tables := map n | n in s.tables :: s.tables[n].(ignore := on))
    case SysCommit =>
      Sys(map n | n in s.tables :: Flushed(s.tables[n], s.store[n]), map n | n in s.tables :: Clean(s.tables[n]))
    case SysImport => s.(tables := map n | n in s.tables :: Loaded(s.tables[n], s.store[n]))
    case SysCrash => s.(tables := map n | n in s.tables :: Fresh())
  }

  lemma StepAligned<K, V>(s: Sys<K, V>, op: SysOp<K, V>)
    requires Aligned(s)
    ensures Aligned(Step(s, op)) && Step(s, op).tables.Keys == s.tables.Keys
  {
  }

  function Run<K, V>(s: Sys<K, V>, ops: seq<SysOp<K, V>>): (r: Sys<K, V>)
    requires Aligned(s)
    ensures Aligned(r) && r.tables.Keys == s.tables.Keys
    decreases |ops|
  {
    if ops == [] then s
    else
      var before := Run(s, ops[..|ops| - 1]);
      StepAligned(before, ops[|ops| - 1]);
      Step(before, ops[|ops| - 1])
  }

  ghost predicate AllSynced<K, V>(s: Sys<K, V>)
    requires Aligned(s)
  {
    forall n :: n in s.tables ==> Synced(s.tables[n], s.store[n])
  }

  /** No table is used between a crash and the import that follows it. */
  predicate Recovers<K, V>(ops: seq<SysOp<K, V>>) {
    forall i, j :: 0 <= i < |ops| && j == i + 1 && j < |ops| && ops[i].SysCrash? ==> ops[j].SysImport?
  }

  predicate JustCrashed<K, V>(ops: seq<SysOp<K, V>>) {
    ops != [] && ops[|ops| - 1].SysCrash?
  }

  /** What the tables held when they were last committed. */
  function LastCommitted<K, V>(s: Sys<K, V>, ops: seq<SysOp<K, V>>): map<Name, map<K, V>>
    requires Aligned(s)
    decreases |ops|
  {
    if ops == [] then Caches(s)
    else if ops[|ops| - 1].SysCommit? then Caches(Run(s, ops[..|ops| - 1]))
    else LastCommitted(s, ops[..|ops| - 1])
  }

  lemma StepKeepsSynced<K, V>(s: Sys<K, V>, op: SysOp<K, V>)
    requires Aligned(s) && AllSynced(s) && !op.SysCrash?
    ensures Aligned(Step(s, op)) && AllSynced(Step(s, op))
    ensures op.SysCommit? ==> Step(s, op).store == Caches(s) == Caches(Step(s, op))
    ensures !op.SysCommit? ==> Step(s, op).store == s.store
  {
    StepAligned(s, op);
    var s' := Step(s, op);
    forall n | n in s'.tables ensures Synced(s'.tables[n], s'.store[n]) {
      match op {
        case SysPut(m, k, v) => PutSynced(s.tables[n], s.store[n], k, v);
        case SysDrop(m, k) => DropSynced(s.tables[n], s.store[n], k);
        case SysIgnore(on) =>
        case SysCommit => FlushSynced(s.tables[n], s.store[n]);
        case SysImport => LoadSynced(s.tables[n], s.store[n]);
      }
    }
    if op.SysCommit? {
      forall n | n in s.tables ensures s'.store[n] == s.tables[n].cache {
        FlushSynced(s.tables[n], s.store[n]);
      }
    }
  }

  lemma ImportSynced<K, V>(s: Sys<K, V>)
    requires Aligned(s)
    ensures Aligned(Step(s, SysImport)) && AllSynced(Step(s, SysImport))
    ensures Step(s, SysImport).store == s.store && Caches(Step(s, SysImport)) == s.store
  {
  }

  /** The operations before the last recover from crashes if all of them do. */
  lemma RecoversBefore<K, V>(ops: seq<SysOp<K, V>>)
    requires Recovers(ops) && ops != []
    ensures Recovers(ops[..|ops| - 1])
    ensures JustCrashed(ops[..|ops| - 1]) ==> ops[|ops| - 1].SysImport?
  {
    var before := ops[..|ops| - 1];
    forall i, j | 0 <= i < |before| && j == i + 1 && j < |before| && before[i].SysCrash? ensures before[j].SysImport? {
      assert ops[i] == before[i] && ops[j] == before[j];
    }
    if JustCrashed(before) {
      assert ops[|ops| - 2] == before[|before| - 1];
    }
  }

  /** Over every run that imports after a crash before it goes on: every table's cache is the
      store with its own changes applied, and the store is what the tables held at the last
      commit. */
  lemma {:induction false} RunSynced<K, V>(s: Sys<K, V>, ops: seq<SysOp<K, V>>)
    requires Aligned(s) && AllSynced(s) && Caches(s) == s.store && Recovers(ops)
    ensures !JustCrashed(ops) ==> AllSynced(Run(s, ops))
    ensures Run(s, ops).store == LastCommitted(s, ops)
    decreases |ops|
  {
    if ops != [] {
      var before, op := ops[..|ops| - 1], ops[|ops| - 1];
      RecoversBefore(ops);
      RunSynced(s, before);
      var s1 := Run(s, before);
      if JustCrashed(before) {
        ImportSynced(s1);
      } else if !op.SysCrash? {
        StepKeepsSynced(s1, op);
      }
    }
  }

  /** A crash at any moment, followed by an import, restores all tables at once to the state
      of the last commit. */
  lemma CrashRestores<K, V>(s: Sys<K, V>, ops: seq<SysOp<K, V>>)
    requires Aligned(s) && AllSynced(s) && Caches(s) == s.store && Recovers(ops) && !JustCrashed(ops)
    ensures Caches(Run(s, ops + [SysCrash, SysImport])) == LastCommitted(s, ops)
    ensures AllSynced(Run(s, ops + [SysCrash, SysImport]))
  {
    RunSynced(s, ops);
    var crashed, all := ops + [SysCrash], ops + [SysCrash, SysImport];
    assert crashed[..|crashed| - 1] == ops && all[..|all| - 1] == crashed;
    assert Run(s, crashed) == Step(Run(s, ops), SysCrash);
    assert Run(s, all) == Step(Run(s, crashed), SysImport);
    ImportSynced(Run(s, crashed));
  }

  // ----- what a table holds -----

  datatype Held<V> = Absent | Present(value: V)

  function Find<K, V>(m: map<K, V>, k: K): Held<V> {
    if k in m then Present(m[k]) else Absent
  }

  /** Is table `n` ignoring changes after the operations? */
  function IgnoresAfter<K, V>(s: Sys<K, V>, ops: seq<SysOp<K, V>>, n: Name): bool
    requires n in s.tables
    decreases |ops|
  {
    if ops == [] then s.tables[n].ignore
    else
      match ops[|ops| - 1]
      case SysIgnore(on) => on
      case SysCrash => false
      case _ => IgnoresAfter(s, ops[..|ops| - 1], n)
  }

  /** What table `n` should hold for `k`: what the last insertion or removal of `k` said that
      was not ignored; but a load brings back what was committed, and a crash loses it. */
  function ShouldHold<K, V>(s: Sys<K, V>, ops: seq<SysOp<K, V>>, n: Name, k: K): Held<V>
    requires Aligned(s) && n in s.tables
    decreases |ops|
  {
    if ops == [] then Find(s.tables[n].cache, k)
    else
      var before := ops[..|ops| - 1];
      match ops[|ops| - 1]
      case SysPut(m, l, v) => if m == n && l == k && !IgnoresAfter(s, before, n) then Present(v) else ShouldHold(s, before, n, k)
      case SysDrop(m, l) => if m == n && l == k && !IgnoresAfter(s, before, n) then Absent else ShouldHold(s, before, n, k)
      case SysImport => ShouldStore(s, before, n, k)
      case SysCrash => Absent
      case _ => ShouldHold(s, before, n, k)
  }

  /** What is stored for `k`: what the table held at the last commit. */
  function ShouldStore<K, V>(s: Sys<K, V>, ops: seq<SysOp<K, V>>, n: Name, k: K): Held<V>
    requires Aligned(s) && n in s.tables
    decreases |ops|
  {
    if ops == [] then Find(s.store[n], k)
    else if ops[|ops| - 1].SysCommit? then ShouldHold(s, ops[..|ops| - 1], n, k)
    else ShouldStore(s, ops[..|ops| - 1], n, k)
  }

  /** One operation, on one key of one table. */
  lemma StepHolds<K, V>(s: Sys<K, V>, op: SysOp<K, V>, n: Name, k: K)
    requires Aligned(s) && n in s.tables && (op.SysCommit? ==> AllSynced(s))
    ensures
      var (t, t') := (s.tables[n], Step(s, op).tables[n]);
      match op
      case SysPut(m, l, v) => t'.ignore == t.ignore && Find(t'.cache, k) == if m == n && l == k && !t.ignore then Present(v) else Find(t.cache, k)
      case SysDrop(m, l) => t'.ignore == t.ignore && Find(t'.cache, k) == if m == n && l == k && !t.ignore then Absent else Find(t.cache, k)
      case SysImport => t'.ignore == t.ignore && Find(t'.cache, k) == Find(s.store[n], k)
      case SysCrash => !t'.ignore && Find(t'.cache, k) == Absent
      case SysIgnore(on) => t'.ignore == on && t'.cache == t.cache
      case SysCommit => t'.ignore == t.ignore && t'.cache == t.cache && Find(Step(s, op).store[n], k) == Find(t.cache, k)
    ensures !op.SysCommit? ==> Step(s, op).store == s.store
  {
    StepAligned(s, op);
    if op.SysCommit? {
      FlushSynced(s.tables[n], s.store[n]);
    }
  }

  /** Over every run that imports after a crash before it goes on, every table holds what it
      should for every key, and so does its store. */
  lemma {:induction false} RunHolds<K, V>(s: Sys<K, V>, ops: seq<SysOp<K, V>>, n: Name, k: K)
    requires Aligned(s) && AllSynced(s) && Caches(s) == s.store && Recovers(ops) && n in s.tables
    ensures n in Run(s, ops).tables && Run(s, ops).tables[n].ignore == IgnoresAfter(s, ops, n)
    ensures Find(Run(s, ops).tables[n].cache, k) == ShouldHold(s, ops, n, k)
    ensures Find(Run(s, ops).store[n], k) == ShouldStore(s, ops, n, k)
    decreases |ops|
  {
    if ops != [] {
      var before := ops[..|ops| - 1];
      RecoversBefore(ops);
      RunHolds(s, before, n, k);
      RunSynced(s, before);
      StepHolds(Run(s, before), ops[|ops| - 1], n, k);
    }
  }

  /** So after a commit, a crash and the import that follows, every table holds for every key
      what it held at the commit. */
  lemma CrashKeeps<K, V>(s: Sys<K, V>, ops: seq<SysOp<K, V>>, n: Name, k: K)
    requires Aligned(s) && AllSynced(s) && Caches(s) == s.store && Recovers(ops) && !JustCrashed(ops) && n in s.tables
    ensures n in Run(s, ops + [SysCommit] + [SysCrash, SysImport]).tables
    ensures Find(Run(s, ops + [SysCommit] + [SysCrash, SysImport]).tables[n].cache, k) == ShouldHold(s, ops, n, k)
  {
    var committed := ops + [SysCommit];
    assert committed[..|committed| - 1] == ops;
    CommitRecovers(ops);
    RunHolds(s, ops, n, k);
    RunSynced(s, ops);
    CrashRestores(s, committed);
    assert Caches(Run(s, committed + [SysCrash, SysImport])) == Caches(Run(s, ops));
    assert n in Caches(Run(s, ops));
  }

  lemma CommitRecovers<K, V>(ops: seq<SysOp<K, V>>)
    requires Recovers(ops) && !JustCrashed(ops)
    ensures Recovers(ops + [SysCommit]) && !JustCrashed(ops + [SysCommit])
  {
    var all := ops + [SysCommit];
    assert ops != [] ==> all[|ops| - 1] == ops[|ops| - 1];
    assert forall i :: 0 <= i < |ops| ==> all[i] == ops[i];
  }

  // ----- the table and the environment themselves -----

  method PutAll<K(==), V>(txn: map<K, V>, add: map<K, V>) returns (txn': map<K, V>)
    ensures txn' == txn + add
  {
    txn' := txn;
    var rest := add.Keys;
    while rest != {}
      invariant forall k :: k in txn' <==> k in txn || (k in add && k !in rest)
      invariant forall k :: k in txn' ==> txn'[k] == if k in add && k !in rest then add[k] else txn[k]
      invariant rest <= add.Keys
      decreases rest
    {
      var k :| k in rest;
      txn' := txn'[k := add[k]];
      rest := rest - {k};
    }
  }

  method DeleteAll<K(==), V>(txn: map<K, V>, del: set<K>) returns (txn': map<K, V>)
    ensures txn' == txn - del
  {
    txn' := txn;
    var rest := del;
    while rest != {}
      invariant forall k :: k in txn' <==> k in txn && !(k in del && k !in rest)
      invariant forall k :: k in txn' ==> txn'[k] == txn[k]
      invariant rest <= del
      decreases rest
    {
      var k :| k in rest;
      txn' := txn' - {k};
      rest := rest - {k};
    }
  }

  class ReDb<K(==,!new), V(!new)> {
    var ignore: bool
    var cache: map<K, V>
    var add: map<K, V>
    var del: set<K>

    function Value(): Tbl<K, V>
      reads this
    {
      Tbl(ignore, cache, add, del)
    }

    constructor ()
      ensures Value() == Fresh()
    {
      ignore, cache, add, del := false, map[], map[], {};
    }

    method SetIgnore(on: bool)
      modifies this
      ensures Value() == old(Value()).(ignore := on)
    {
      ignore := on;
    }

    method Insert(k: K, v: V)
      modifies this
      ensures Value() == Put(old(Value()), k, v)
      ensures old(ignore) ==> Value() == old(Value())
      ensures !old(ignore) ==>
        !ignore && cache == old(cache)[k := v] && add == old(add)[k := v] && del == old(del) - {k}
      ensures forall store :: old(Synced(Value(), store)) ==> Synced(Value(), store)
    {
      if ignore {
        return;
      }
      del := del - {k};
      add := add[k := v];
      cache := cache[k := v];
      forall store | old(Synced(Value(), store)) ensures Synced(Value(), store) {
        PutSynced(old(Value()), store, k, v);
      }
    }

    method Remove(k: K)
      modifies this
      ensures Value() == Drop(old(Value()), k)
      ensures old(ignore) ==> Value() == old(Value())
      ensures !old(ignore) ==>
        !ignore && cache == old(cache) - {k} && add == old(add) - {k} && del == old(del) + {k}
      ensures forall store :: old(Synced(Value(), store)) ==> Synced(Value(), store)
    {
      if ignore {
        return;
      }
      add := add - {k};
      del := del + {k};
      cache := cache - {k};
      forall store | old(Synced(Value(), store)) ensures Synced(Value(), store) {
        DropSynced(old(Value()), store, k);
      }
    }

    /** The additions are put one by one, then the deletions are deleted one by one, into the
        transaction's copy of the store. */
    method CacheToDb(txn: map<K, V>) returns (txn': map<K, V>)
      modifies this
      ensures txn' == Flushed(old(Value()), txn) && Value() == Clean(old(Value()))
    {
      txn' := PutAll(txn, add);
      add := map[];
      txn' := DeleteAll(txn', del);
      del := {};
    }

    method DbToCache(store: map<K, V>)
      modifies this
      ensures Value() == Loaded(old(Value()), store)
    {
      add := map[];
      del := {};
      cache := map[];
      cache := PutAll(cache, store);
    }
  }

  /** The registered tables, and the committed store of each. */
  class ReliEntry<K(==,!new), V(!new)> {
    var env: map<Name, map<K, V>>
    var dbs: map<Name, ReDb<K, V>>

    ghost predicate Valid()
      reads this
    {
      env.Keys == dbs.Keys && forall m, n :: m in dbs && n in dbs && m != n ==> dbs[m] != dbs[n]
    }

    ghost function Tables(): map<Name, Tbl<K, V>>
      reads this, dbs.Values
    {
      map n | n in dbs :: dbs[n].Value()
    }

    ghost function Value(): Sys<K, V>
      reads this, dbs.Values
    {
      Sys(env, Tables())
    }

    constructor ()
      ensures Valid() && env == map[] && dbs == map[]
    {
      env, dbs := map[], map[];
    }

    /** A transaction collects the flushes of all tables, in whatever order, and is committed
        as a whole. */
    method Commit()
      requires Valid()
      modifies this, dbs.Values
      ensures Valid() && dbs == old(dbs) && Value() == Step(old(Value()), SysCommit)
    {
      ghost var s0 := Value();
      ghost var goal := Step(s0, SysCommit);
      CommitIsGoal(s0, goal);
      var txn := FlushAll(goal);
      WriteAll(txn);
      assert Value() == goal;
    }

    method WriteAll(txn: map<Name, map<K, V>>)
      requires Valid()
      modifies this`env
      ensures env == txn && Tables() == old(Tables())
    {
      env := txn;
    }

    method FlushAll(ghost goal: Sys<K, V>) returns (txn: map<Name, map<K, V>>)
      requires Valid() && FlushGoal(Value(), goal)
      modifies dbs.Values
      ensures txn.Keys == env.Keys && Sys(txn, Tables()) == goal
    {
      ghost var s0, t0 := Value(), Tables();
      txn := env;
      var rest := dbs.Keys;
      NothingYet(t0, goal.tables);
      NothingYet(env, goal.store);
      while rest != {}
        invariant rest <= dbs.Keys && Partly(t0, goal.tables, Tables(), rest) && Partly(env, goal.store, txn, rest)
        decreases rest
      {
        var n :| n in rest;
        txn := FlushNext(n, txn, t0, goal, rest);
        rest := rest - {n};
      }
      GoalReached(s0, goal, Tables(), txn);
    }

    method FlushNext(n: Name, txn: map<Name, map<K, V>>, ghost t0: map<Name, Tbl<K, V>>, ghost goal: Sys<K, V>, ghost rest: set<Name>)
      returns (txn': map<Name, map<K, V>>)
      requires Valid() && n in rest && n in dbs
      requires Partly(t0, goal.tables, Tables(), rest) && Partly(env, goal.store, txn, rest)
      requires goal.tables[n] == Clean(t0[n]) && goal.store[n] == Flushed(t0[n], env[n])
      modifies dbs[n]
      ensures Partly(t0, goal.tables, Tables(), rest - {n}) && Partly(env, goal.store, txn', rest - {n})
    {
      ghost var t1 := Tables();
      var flushed := FlushOne(n, txn[n]);
      OneMore(t0, goal.tables, t1, rest, n, Clean(t1[n]));
      OneMore(env, goal.store, txn, rest, n, flushed);
      txn' := txn[n := flushed];
    }

    method FlushOne(n: Name, store: map<K, V>) returns (flushed: map<K, V>)
      requires Valid() && n in dbs
      modifies dbs[n]
      ensures flushed == Flushed(old(Tables())[n], store)
      ensures Tables() == old(Tables())[n := Clean(old(Tables())[n])]
    {
      flushed := dbs[n].CacheToDb(store);
    }

    method ImportOne(n: Name)
      requires Valid() && n in dbs
      modifies dbs[n]
      ensures Tables() == old(Tables())[n := Loaded(old(Tables())[n], env[n])]
    {
      dbs[n].DbToCache(env[n]);
    }

    method Import()
      requires Valid()
      modifies dbs.Values
      ensures Valid() && Value() == Step(old(Value()), SysImport)
    {
      ghost var t0, goal := Tables(), Step(Value(), SysImport).tables;
      var rest := dbs.Keys;
      while rest != {}
        invariant rest <= dbs.Keys && Valid() && Partly(t0, goal, Tables(), rest)
        decreases rest
      {
        var n :| n in rest;
        ghost var t1 := Tables();
        ImportOne(n);
        OneMore(t0, goal, t1, rest, n, Loaded(t1[n], env[n]));
        rest := rest - {n};
      }
      AllDone(t0, goal, Tables());
    }

    method IgnoreOne(n: Name, on: bool)
      requires Valid() && n in dbs
      modifies dbs[n]
      ensures Tables() == old(Tables())[n := old(Tables())[n].(ignore := on)]
    {
      dbs[n].SetIgnore(on);
    }

    method IgnoreSet(on: bool)
      requires Valid()
      modifies dbs.Values
      ensures Valid() && Value() == Step(old(Value()), SysIgnore(on))
    {
      ghost var t0, goal := Tables(), Step(Value(), SysIgnore(on)).tables;
      var rest := dbs.Keys;
      while rest != {}
        invariant rest <= dbs.Keys && Valid() && Partly(t0, goal, Tables(), rest)
        decreases rest
      {
        var n :| n in rest;
        ghost var t1 := Tables();
        IgnoreOne(n, on);
        OneMore(t0, goal, t1, rest, n, t1[n].(ignore := on));
        rest := rest - {n};
      }
      AllDone(t0, goal, Tables());
    }
  }

  /** Every table is to be clean, and its store to hold what it flushes. */
  ghost predicate FlushGoal<K, V>(s: Sys<K, V>, goal: Sys<K, V>) {
    && goal.tables.Keys == goal.store.Keys == s.tables.Keys == s.store.Keys
    && forall n :: n in s.tables ==> goal.tables[n] == Clean(s.tables[n]) && goal.store[n] == Flushed(s.tables[n], s.store[n])
  }

  lemma CommitIsGoal<K, V>(s: Sys<K, V>, goal: Sys<K, V>)
    requires Aligned(s) && goal == Step(s, SysCommit)
    ensures FlushGoal(s, goal)
  {
  }

  /** Outside `rest` the goal has been reached; nothing else has changed. */
  ghost predicate Partly<T>(from: map<Name, T>, goal: map<Name, T>, cur: map<Name, T>, rest: set<Name>) {
    cur.Keys == from.Keys == goal.Keys && forall n :: n in cur ==> cur[n] == if n in rest then from[n] else goal[n]
  }

  lemma OneMore<T>(from: map<Name, T>, goal: map<Name, T>, cur: map<Name, T>, rest: set<Name>, n: Name, t: T)
    requires Partly(from, goal, cur, rest) && n in rest && n in goal && t == goal[n]
    ensures Partly(from, goal, cur[n := t], rest - {n})
  {
  }

  lemma NothingYet<T>(from: map<Name, T>, goal: map<Name, T>)
    requires from.Keys == goal.Keys
    ensures Partly(from, goal, from, from.Keys)
  {
  }

  lemma GoalReached<K, V>(s: Sys<K, V>, goal: Sys<K, V>, tables: map<Name, Tbl<K, V>>, txn: map<Name, map<K, V>>)
    requires Partly(s.tables, goal.tables, tables, {}) && Partly(s.store, goal.store, txn, {})
    ensures Sys(txn, tables) == goal
  {
    AllDone(s.tables, goal.tables, tables);
    AllDone(s.store, goal.store, txn);
  }

  lemma AllDone<T>(from: map<Name, T>, goal: map<Name, T>, cur: map<Name, T>)
    requires Partly(from, goal, cur, {})
    ensures cur == goal
  {
  }
}
