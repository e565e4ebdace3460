/** Counting jobs by kind and by stage, with checked additions and subtractions
    (process1/src/manager/unit/job/job_stat.rs). */
module JobStat {
  import opened UnitBase
  import opened JobEntry
  import opened JobTableState

  const USIZE: nat := 0x1_0000_0000_0000_0000

  type Usize = x: nat | x < USIZE

  function Count(ks: seq<JobKind>, k: JobKind): nat {
    if ks == [] then 0 else Count(ks[..|ks| - 1], k) + if ks[|ks| - 1] == k then 1 else 0
  }

  lemma {:induction false} CountPrefix(ks: seq<JobKind>, n: nat, k: JobKind)
    requires n <= |ks|
    ensures Count(ks[..n], k) <= Count(ks, k)
    decreases |ks|
  {
    if n < |ks| {
      CountPrefix(ks[..|ks| - 1], n, k);
      assert ks[..|ks| - 1][..n] == ks[..n];
    } else {
      assert ks[..n] == ks;
    }
  }

  lemma CountNext(ks: seq<JobKind>, i: nat, k: JobKind)
    requires i < |ks|
    ensures Count(ks[..i + 1], k) == Count(ks[..i], k) + if ks[i] == k then 1 else 0
    ensures Count(ks[..i + 1], k) <= Count(ks, k)
  {
    assert ks[..i + 1][..i] == ks[..i];
    CountPrefix(ks, i + 1, k);
  }

  predicate AllBasic(ks: seq<JobKind>) {
    forall i :: 0 <= i < |ks| ==> IsBasic(ks[i])
  }

  class JobStatData {
    var start: Usize
    var stop: Usize
    var reload: Usize
    var restart: Usize
    var verify: Usize
    var nop: Usize
    var wait: Usize
    var running: Usize

    /** The counter of a basic kind. */
    function Num(k: JobKind): Usize
      reads this
    {
      match k
      case Start => start
      case Stop => stop
      case Reload => reload
      case Restart => restart
      case Verify => verify
      case Nop => nop
      case _ => 0
    }

    constructor ()
      ensures forall k :: Num(k) == 0
      ensures wait == 0 && running == 0
    {
      start, stop, reload, restart, verify, nop, wait, running := 0, 0, 0, 0, 0, 0, 0, 0;
    }

    method SetNum(k: JobKind, v: Usize)
      requires IsBasic(k)
      modifies this`start, this`stop, this`reload, this`restart, this`verify, this`nop
      ensures Num(k) == v && forall l :: l != k ==> Num(l) == old(Num(l))
    {
      match k {
        case Start => start := v;
        case Stop => stop := v;
        case Reload => reload := v;
        case Restart => restart := v;
        case Verify => verify := v;
        case Nop => nop := v;
      }
    }

    /** Every deletion is subtracted, then every addition added; the first counter to go
        out of range aborts. That is the case exactly when some kind has more deletions
        than its counter, or ends beyond the largest number. */
    method UpdateKinds(adds: seq<JobKind>, dels: seq<JobKind>) returns (panicked: bool)
      requires AllBasic(adds) && AllBasic(dels)
      modifies this`start, this`stop, this`reload, this`restart, this`verify, this`nop
      ensures panicked <==> exists k :: Count(dels, k) > old(Num(k)) || old(Num(k)) - Count(dels, k) + Count(adds, k) >= USIZE
      ensures !panicked ==> forall k :: Num(k) == old(Num(k)) - Count(dels, k) + Count(adds, k)
    {
      var i := 0;
      while i < |dels|
        invariant i <= |dels| && forall k :: Num(k) == old(Num(k)) - Count(dels[..i], k)
      {
        forall k ensures Count(dels[..i + 1], k) == Count(dels[..i], k) + (if dels[i] == k then 1 else 0) <= Count(dels, k) {
          CountNext(dels, i, k);
        }
        if Num(dels[i]) < 1 {
          return true;
        }
        SetNum(dels[i], Num(dels[i]) - 1);
        i := i + 1;
      }
      assert dels[..i] == dels;
      i := 0;
      while i < |adds|
        invariant i <= |adds| && forall k :: Num(k) == old(Num(k)) - Count(dels, k) + Count(adds[..i], k)
        invariant forall k :: old(Num(k)) - Count(dels, k) < USIZE
      {
        forall k ensures Count(adds[..i + 1], k) == Count(adds[..i], k) + (if adds[i] == k then 1 else 0) <= Count(adds, k) {
          CountNext(adds, i, k);
        }
        if Num(adds[i]) + 1 >= USIZE {
          return true;
        }
        SetNum(adds[i], Num(adds[i]) + 1);
        i := i + 1;
      }
      assert adds[..i] == adds;
      panicked := false;
    }

    method UpdateWait(change: nat, inc: bool) returns (panicked: bool)
      modifies this`wait
      ensures panicked <==> if inc then old(wait) + change >= USIZE else change > old(wait)
      ensures !panicked ==> wait == if inc then old(wait) + change else old(wait) - change
    {
      panicked := if inc then wait + change >= USIZE else change > wait;
      if !panicked {
        wait := if inc then wait + change else wait - change;
      }
    }

    method UpdateRun(change: nat, inc: bool) returns (panicked: bool)
      modifies this`running
      ensures panicked <==> if inc then old(running) + change >= USIZE else change > old(running)
      ensures !panicked ==> running == if inc then old(running) + change else old(running) - change
    {
      panicked := if inc then running + change >= USIZE else change > running;
      if !panicked {
        running := if inc then running + change else running - change;
      }
    }
  }
}
