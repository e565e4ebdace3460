/** Allocation of job ids: 32-bit numbers, handed out cyclically and never given back
    (process1/src/manager/unit/job/job_alloc.rs). */
module JobAlloc {
  const ID_LIMIT: nat := 0x1_0000_0000

  predicate IdsInRange(ids: set<nat>) {
    forall id :: id in ids ==> id < ID_LIMIT
  }

  /** How many numbers are passed over on the way from `last` to `id`, wrapping around. */
  function Dist(last: nat, id: nat): nat
    requires last < ID_LIMIT && id < ID_LIMIT
  {
    if id > last then id - last - 1 else id + ID_LIMIT - last - 1
  }

  ghost function Below(n: nat): set<nat> {
    if n == 0 then {} else Below(n - 1) + {n - 1}
  }

  lemma {:induction false} BelowMeaning(n: nat)
    ensures forall i: nat :: i in Below(n) <==> i < n
    ensures |Below(n)| == n
  {
    if n > 0 {
      BelowMeaning(n - 1);
    }
  }

  lemma SubsetCard(a: set<nat>, b: set<nat>)
    requires a <= b
    ensures |a| <= |b| && (|a| == |b| ==> a == b)
  {
    assert b == a + (b - a);
  }

  predicate IsFree(ids: set<nat>, f: nat) {
    f < ID_LIMIT && f !in ids
  }

  /** A free number is left exactly while fewer than 2^32 were handed out; after that
      the search of `AllocId` would go round forever. */
  lemma FreeIdIff(ids: set<nat>)
    requires IdsInRange(ids)
    ensures (exists f :: IsFree(ids, f)) <==> |ids| < ID_LIMIT
  {
    var all := Below(ID_LIMIT);
    BelowMeaning(ID_LIMIT);
    SubsetCard(ids, all);
    if |ids| < ID_LIMIT {
      if all <= ids {
        SubsetCard(all, ids);
      }
      var f: nat :| f in all && f !in ids;
      assert IsFree(ids, f);
    } else {
      assert forall f :: IsFree(ids, f) ==> f in all;
    }
  }

  class JobAllocData {
    var ids: set<nat>
    var lastId: nat

    predicate Valid()
      reads this
    {
      lastId < ID_LIMIT && IdsInRange(ids)
    }

    constructor ()
      ensures Valid() && ids == {} && lastId == 0
    {
      ids, lastId := {}, 0;
    }

    /** The first number after the last one, cyclically, that was never handed out. */
    method AllocId() returns (id: nat)
      requires Valid() && |ids| < ID_LIMIT
      modifies this
      ensures Valid() && id < ID_LIMIT && id !in old(ids) && ids == old(ids) + {id} && lastId == id
      ensures forall x: nat :: x < ID_LIMIT && Dist(old(lastId), x) < Dist(old(lastId), id) ==> x in old(ids)
    {
      FreeIdIff(ids);
      ghost var f :| IsFree(ids, f);
      ghost var first, n := lastId, 0;
      while true
        invariant Valid() && ids == old(ids) && n <= Dist(first, f)
        invariant lastId == if first + n < ID_LIMIT then first + n else first + n - ID_LIMIT
        invariant forall x: nat :: x < ID_LIMIT && Dist(first, x) < n ==> x in ids
        decreases ID_LIMIT - n
      {
        var next := (lastId + 1) % ID_LIMIT;
        assert Dist(first, next) == n;
        lastId := next;
        if next !in ids {
          ids := ids + {next};
          return next;
        }
        n := n + 1;
      }
    }
  }
}
