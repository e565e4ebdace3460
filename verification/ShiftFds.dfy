/** Renumbering the descriptors handed to a new process so that they start at 3 without a
    gap (process1/src/manager/unit/execute/exec_spawn.rs). Duplication is the F_DUPFD of
    fcntl() in the System Interfaces volume of POSIX.1-2017: the lowest free descriptor
    not below the argument. */
module ShiftFds {
  /** An open file description, by name. */
  type File = nat

  type Open = map<nat, File>

  /** The lowest number from `min` on that is not in `used`. */
  function LowestFree(used: set<nat>, min: nat): nat
    decreases |used|
  {
    if min in used then LowestFree(used - {min}, min + 1) else min
  }

  lemma {:induction false} LowestFreeMeaning(used: set<nat>, min: nat)
    ensures LowestFree(used, min) >= min && LowestFree(used, min) !in used
    ensures forall f: nat :: min <= f < LowestFree(used, min) ==> f in used
    decreases |used|
  {
    if min in used {
      LowestFreeMeaning(used - {min}, min + 1);
      assert LowestFree(used, min) == LowestFree(used - {min}, min + 1);
      forall f: nat | min <= f < LowestFree(used, min) ensures f in used {
        assert f != min ==> f in used - {min};
      }
    }
  }

  function Range(min: nat, n: nat): set<nat> {
    if n == 0 then {} else Range(min, n - 1) + {min + n - 1}
  }

  lemma {:induction false} RangeMeaning(min: nat, n: nat)
    ensures forall f: nat :: f in Range(min, n) <==> min <= f < min + n
    ensures |Range(min, n)| == n
  {
    if n > 0 {
      RangeMeaning(min, n - 1);
    }
  }

  lemma SubsetSize(a: set<nat>, b: set<nat>)
    requires a <= b
    ensures |a| <= |b|
  {
    assert b == a + (b - a);
  }

  /** With at most `n` numbers used from `min` on, one of the next `n + 1` is free. */
  lemma LowestFreeNear(used: set<nat>, min: nat, above: set<nat>, n: nat)
    requires |above| <= n && forall f: nat :: f in used && f >= min ==> f in above
    ensures LowestFree(used, min) <= min + n
  {
    LowestFreeMeaning(used, min);
    var k := LowestFree(used, min) - min;
    RangeMeaning(min, k);
    assert Range(min, k) <= above;
    SubsetSize(Range(min, k), above);
  }

  method FindFree(used: set<nat>, min: nat) returns (nfd: nat)
    ensures nfd == LowestFree(used, min)
  {
    nfd := min;
    ghost var rest := used;
    while nfd in used
      invariant nfd >= min && rest <= used && LowestFree(used, min) == LowestFree(rest, nfd)
      invariant forall f: nat :: f >= nfd && f in used ==> f in rest
      decreases |rest|
    {
      rest := rest - {nfd};
      nfd := nfd + 1;
    }
  }

  /** The descriptor table of the process. */
  class FdTable {
    var open: Open
    const limit: nat

    constructor (open: Open, limit: nat)
      ensures this.open == open && this.limit == limit
    {
      this.open, this.limit := open, limit;
    }

    method DupFd(fd: nat, min: nat) returns (ok: bool, nfd: nat)
      modifies this
      ensures ok <==> fd in old(open) && LowestFree(old(open).Keys, min) < limit
      ensures nfd == LowestFree(old(open).Keys, min)
      ensures open == if ok then old(open)[nfd := old(open)[fd]] else old(open)
    {
      nfd := FindFree(open.Keys, min);
      ok := fd in open && nfd < limit;
      if ok {
        open := open[nfd := open[fd]];
      }
    }

    method Close(fd: nat)
      modifies this
      ensures open == old(open) - {fd}
    {
      open := open - {fd};
    }
  }

  /** The entries are distinct open descriptors from 3 on, and there are no others. */
  predicate Owned(fds: seq<nat>, open: Open) {
    && (forall i :: 0 <= i < |fds| ==> fds[i] >= 3 && fds[i] in open)
    && (forall i, j :: 0 <= i < j < |fds| ==> fds[i] != fds[j])
    && (forall f: nat :: f in open && f >= 3 ==> f in fds)
  }

  /** The files the entries name, in order. */
  function Files(fds: seq<nat>, open: Open): seq<File>
    requires forall i :: 0 <= i < |fds| ==> fds[i] in open
  {
    if fds == [] then [] else Files(fds[..|fds| - 1], open) + [open[fds[|fds| - 1]]]
  }

  lemma {:induction false} FilesSame(fds: seq<nat>, open: Open, fds': seq<nat>, open': Open)
    requires |fds'| == |fds|
    requires forall i :: 0 <= i < |fds| ==> fds[i] in open && fds'[i] in open' && open'[fds'[i]] == open[fds[i]]
    ensures Files(fds', open') == Files(fds, open)
  {
    if fds != [] {
      var n := |fds| - 1;
      FilesSame(fds[..n], open, fds'[..n], open');
    }
  }

  /** The standard descriptors. */
  function Std(open: Open): Open {
    map f | f in open && f < 3 :: open[f]
  }

  /** Every entry names the file it named before, and the standard descriptors are as they were. */
  predicate SameFiles(fds: seq<nat>, open: Open, fds': seq<nat>, open': Open)
    requires Owned(fds, open) && Owned(fds', open')
  {
    Files(fds', open') == Files(fds, open) && Std(open') == Std(open)
  }

  lemma MoveOwned(fds: seq<nat>, open: Open, i: nat, nfd: nat)
    requires Owned(fds, open) && i < |fds| && nfd >= 3 && nfd !in open
    ensures Owned(fds[i := nfd], open[nfd := open[fds[i]]] - {fds[i]})
  {
    var fds' := fds[i := nfd];
    var open' := open[nfd := open[fds[i]]] - {fds[i]};
    forall f: nat | f in open' && f >= 3 ensures f in fds' {
      if f == nfd {
        assert fds'[i] == nfd;
      } else {
        var j :| 0 <= j < |fds| && fds[j] == f;
        assert fds'[j] == f;
      }
    }
  }

  lemma MoveFiles(fds: seq<nat>, open: Open, i: nat, nfd: nat, fds': seq<nat>, open': Open)
    requires i < |fds| && nfd !in open && fds' == fds[i := nfd]
    requires forall k :: 0 <= k < |fds| ==> fds[k] in open && (k != i ==> fds[k] != fds[i])
    requires open' == open[nfd := open[fds[i]]] - {fds[i]}
    ensures forall k :: 0 <= k < |fds| ==> fds'[k] in open'
    ensures Files(fds', open') == Files(fds, open)
  {
    forall k | 0 <= k < |fds| ensures fds'[k] in open' && open'[fds'[k]] == open[fds[k]] {
      assert fds'[k] == if k == i then nfd else fds[k];
    }
    FilesSame(fds, open, fds', open');
  }

  /** One entry moved to a descriptor that was free. */
  lemma MoveOne(fds: seq<nat>, open: Open, i: nat, nfd: nat, fds': seq<nat>, open': Open)
    requires Owned(fds, open) && i < |fds| && nfd >= 3 && nfd !in open
    requires fds' == fds[i := nfd] && open' == open[nfd := open[fds[i]]] - {fds[i]}
    ensures Owned(fds', open') && SameFiles(fds, open, fds', open')
  {
    MoveOwned(fds, open, i, nfd);
    MoveFiles(fds, open, i, nfd, fds', open');
    assert Std(open') == Std(open);
  }

  lemma {:induction false} MembersBound(fds: seq<nat>)
    ensures |set f: nat | f in fds| <= |fds|
  {
    if fds != [] {
      var rest := fds[..|fds| - 1];
      MembersBound(rest);
      assert (set f: nat | f in fds) == (set f: nat | f in rest) + {fds[|fds| - 1]};
    }
  }

  /** A free descriptor is never far. */
  lemma RoomToMove(fds: seq<nat>, open: Open, i: nat)
    requires Owned(fds, open) && i < |fds|
    ensures LowestFree(open.Keys, i + 3) <= 2 * |fds| + 2
  {
    MembersBound(fds);
    LowestFreeNear(open.Keys, i + 3, set f: nat | f in fds, |fds|);
  }

  /** Entry `i` goes to the lowest free descriptor from i + 3 on. */
  method Move(fds: array<nat>, t: FdTable, i: nat) returns (ok: bool)
    requires i < fds.Length && Owned(fds[..], t.open)
    modifies fds, t
    ensures fds[..] == if ok then old(fds[..])[i := LowestFree(old(t.open).Keys, i + 3)] else old(fds[..])
    ensures Owned(fds[..], t.open) && SameFiles(old(fds[..]), old(t.open), fds[..], t.open)
    ensures t.limit > 2 * fds.Length + 2 ==> ok
    ensures t.open.Keys == if ok then old(t.open).Keys + {fds[i]} - {old(fds[i])} else old(t.open).Keys
  {
    RoomToMove(fds[..], t.open, i);
    LowestFreeMeaning(t.open.Keys, i + 3);
    var nfd;
    ok, nfd := t.DupFd(fds[i], i + 3);
    if ok {
      t.Close(fds[i]);
      fds[i] := nfd;
      assert fds[..] == old(fds[..])[i := nfd];
      MoveOne(old(fds[..]), old(t.open), i, nfd, fds[..], t.open);
    }
  }

  /** The first `n` entries are where they belong. */
  predicate Placed(fds: seq<nat>, n: nat)
    requires n <= |fds|
  {
    forall k :: 0 <= k < n ==> fds[k] == k + 3
  }

  /** Entry `r` was blocked; whatever still sits in its place comes at `i` or later. */
  predicate Blocked(fds: seq<nat>, r: nat, i: nat)
    requires r < |fds| && i <= |fds|
  {
    r < i && forall j :: 0 <= j < i ==> fds[j] != r + 3
  }

  /** What a pass that began at `start` has done before entry `i`. */
  predicate Passing(fds: seq<nat>, start: nat, restart: int, i: nat)
    requires i <= |fds|
  {
    && start <= i && -1 <= restart < i && (restart >= 0 ==> restart >= start && Blocked(fds, restart, i))
    && Placed(fds, if restart < 0 then i else restart)
  }

  /** One entry moved keeps this up, with the entry itself as the place to restart from if
      it is the first that could not be placed. */
  lemma PassOn(fds: seq<nat>, start: nat, restart: int, i: nat, nfd: nat)
    requires i < |fds| && Passing(fds, start, restart, i) && nfd >= i + 3
    ensures Passing(fds[i := nfd], start, if nfd != i + 3 && restart < 0 then i else restart, i + 1)
  {
    if nfd != i + 3 && restart < 0 {
      var fds' := fds[i := nfd];
      forall j | 0 <= j < i + 1 ensures fds'[j] != i + 3 {
        assert j < i ==> fds'[j] == fds[j];
      }
    }
  }

  /** After the pass nothing is left in the place to restart from. */
  lemma PassEnds(fds: seq<nat>, open: Open, start: nat, restart: int)
    requires Owned(fds, open) && Passing(fds, start, restart, |fds|)
    ensures restart < 0 ==> Placed(fds, |fds|)
    ensures restart >= 0 ==> Placed(fds, restart) && restart + 3 !in open
  {
  }

  /** An entry that is in place already. */
  lemma PassBy(fds: seq<nat>, start: nat, restart: int, i: nat)
    requires i < |fds| && Passing(fds, start, restart, i) && fds[i] == i + 3
    ensures Passing(fds, start, restart, i + 1)
  {
  }

  method PassEntry(fds: array<nat>, t: FdTable, start: nat, restart: int, i: nat) returns (ok: bool, restart': int)
    requires i < fds.Length && Owned(fds[..], t.open) && Passing(fds[..], start, restart, i)
    modifies fds, t
    ensures Owned(fds[..], t.open) && SameFiles(old(fds[..]), old(t.open), fds[..], t.open)
    ensures t.limit > 2 * fds.Length + 2 ==> ok
    ensures ok ==> Passing(fds[..], start, restart', i + 1)
    ensures restart' == restart || (restart' == i && restart < 0 && i + 3 in old(t.open))
  {
    if fds[i] == i + 3 {
      PassBy(fds[..], start, restart, i);
      return true, restart;
    }
    LowestFreeMeaning(t.open.Keys, i + 3);
    PassOn(fds[..], start, restart, i, LowestFree(t.open.Keys, i + 3));
    ok := Move(fds, t, i);
    restart' := if ok && fds[i] != i + 3 && restart < 0 then i else restart;
  }

  /** One pass from `start` on. The first entry that cannot be placed is where the next
      pass begins: the pass has freed its place. */
  method Pass(fds: array<nat>, t: FdTable, start: nat) returns (ok: bool, restart: int)
    requires start <= fds.Length && Owned(fds[..], t.open) && Placed(fds[..], start)
    modifies fds, t
    ensures Owned(fds[..], t.open) && SameFiles(old(fds[..]), old(t.open), fds[..], t.open)
    ensures t.limit > 2 * fds.Length + 2 ==> ok
    ensures ok && restart < 0 ==> Placed(fds[..], fds.Length)
    ensures ok && restart >= 0 ==>
      && start <= restart < fds.Length && Placed(fds[..], restart) && restart + 3 !in t.open
      && (start + 3 !in old(t.open) ==> restart > start)
  {
    restart := -1;
    var i := start;
    while i < fds.Length
      invariant i <= fds.Length && Passing(fds[..], start, restart, i)
      invariant Owned(fds[..], t.open) && SameFiles(old(fds[..]), old(t.open), fds[..], t.open)
      invariant i == start ==> (start + 3 in t.open <==> start + 3 in old(t.open))
      invariant i > start && start + 3 !in old(t.open) ==> restart != start
    {
      ok, restart := PassEntry(fds, t, start, restart, i);
      if !ok {
        return;
      }
      i := i + 1;
    }
    PassEnds(fds[..], t.open, start, restart);
    ok := true;
  }

  /** The descriptors are renumbered in passes. It ends, since every pass after the first
      begins further on; if it succeeds entry i is descriptor i + 3, still naming its file,
      and nothing else from 3 on is open. It cannot fail while the limit leaves room for
      twice as many descriptors; and when it fails no file has been lost. */
  method Shift(fds: array<nat>, t: FdTable) returns (ok: bool)
    requires Owned(fds[..], t.open)
    modifies fds, t
    ensures Owned(fds[..], t.open) && SameFiles(old(fds[..]), old(t.open), fds[..], t.open)
    ensures ok ==> forall i :: 0 <= i < fds.Length ==> fds[i] == i + 3
    ensures t.limit > 2 * fds.Length + 2 ==> ok
  {
    var start := 0;
    ghost var first := true;
    while true
      invariant start <= fds.Length && Placed(fds[..], start)
      invariant Owned(fds[..], t.open) && SameFiles(old(fds[..]), old(t.open), fds[..], t.open)
      invariant !first ==> start + 3 !in t.open
      decreases fds.Length - start, first
    {
      var restart;
      ok, restart := Pass(fds, t, start);
      if !ok {
        return;
      }
      if restart < 0 {
        return;
      }
      start, first := restart, false;
    }
  }
}
