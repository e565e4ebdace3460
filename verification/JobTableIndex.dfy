/** The readiness index against the scan it stands for: which units are found in
    `tReady` or in the batch `readys`, whatever the order of events. */
module JobTableIndex {
  import opened UnitBase
  import opened JobTableState

  /** The index is right about every unit outside `pending`, whose record is being
      rewritten: a ready unit is in `tReady` or in the batch, and `tReady` holds only
      ready units. The up-ready flag marks membership in `tReady`; the batch has no
      duplicates, and one of the two is always empty. */
  predicate IndexOn(ix: Index, ready: set<UnitId>, pending: set<UnitId>) {
    && ix.up == ix.tReady
    && Distinct(ix.readys)
    && (ix.tReady == {} || ix.readys == [])
    && (forall u :: u in ready && u !in pending ==> u in ix.tReady || u in ix.readys)
    && (forall u :: u in ix.tReady && u !in pending ==> u in ready)
  }

  predicate IndexOk(ix: Index, ready: set<UnitId>) {
    IndexOn(ix, ready, {})
  }

  /** The batch holds nothing that has stopped being ready. */
  predicate BatchReady(ix: Index, ready: set<UnitId>) {
    forall u :: u in ix.readys ==> u in ready
  }

  lemma {:induction false} SyncEachMeaning(ix: Index, us: seq<UnitId>, ready: set<UnitId>)
    requires ix.up == ix.tReady
    ensures
      var r := SyncEach(ix, us, ready);
      && r.up == r.tReady && r.readys == ix.readys
      && (forall u :: u in r.tReady <==> if u in us then u in ready else u in ix.tReady)
    decreases |us|
  {
    if us != [] {
      SyncEachMeaning(SyncPlain(ix, us[0], ready), us[1..], ready);
      assert forall u :: u in us <==> u == us[0] || u in us[1..];
    }
  }

  lemma BackfillMeaning(ix: Index, ready: set<UnitId>)
    requires ix.up == ix.tReady && (ix.tReady == {} || ix.readys == [])
    ensures
      var b := Backfill(ix, ready);
      && b.up == b.tReady && b.readys == []
      && (forall u :: u in b.tReady <==> if ix.readys == [] then u in ix.tReady else u in ix.readys && u in ready)
  {
    SyncEachMeaning(ix.(readys := []), ix.readys, ready);
  }

  /** One unit's record has been rewritten and is synchronised: the index is right
      about it too. What was pending beside it stays pending. */
  lemma ReadySyncOk(ix: Index, u: UnitId, ready: set<UnitId>, pending: set<UnitId>)
    requires IndexOn(ix, ready, pending + {u})
    ensures IndexOn(ReadySync(ix, u, ready), ready, pending)
  {
    BackfillMeaning(ix, ready);
  }

  /** A change of one unit's readiness only makes that unit pending. */
  lemma BecomesPending(ix: Index, ready: set<UnitId>, ready': set<UnitId>, pending: set<UnitId>, u: UnitId)
    requires IndexOn(ix, ready, pending) && ready - {u} == ready' - {u}
    ensures IndexOn(ix, ready', pending + {u})
  {
    assert forall v :: v != u ==> (v in ready <==> v in ready - {u}) && (v in ready' <==> v in ready' - {u});
  }

  lemma ManyPending(ix: Index, ready: set<UnitId>, ready': set<UnitId>, pending: set<UnitId>)
    requires IndexOk(ix, ready) && forall u :: u !in pending ==> (u in ready <==> u in ready')
    ensures IndexOn(ix, ready', pending)
  {
  }

  /** The batch keeps to ready units through a synchronisation exactly when the
      synchronised unit does not stop being ready while it sits in the batch. */
  lemma BatchReadyIff(ix: Index, u: UnitId, ready: set<UnitId>)
    requires IndexOn(ix, ready, {u}) && forall v :: v in ix.readys && v != u ==> v in ready
    ensures BatchReady(ReadySync(ix, u, ready), ready) <==> !(u in ix.readys && u !in ready)
  {
    BackfillMeaning(ix, ready);
  }

  lemma FillOk(ix: Index, ready: set<UnitId>, order: seq<UnitId>)
    requires IndexOk(ix, ready) && Enumerates(order, ix.tReady)
    ensures IndexOk(Fill(ix, order), ready)
    ensures Fill(ix, order).tReady == {}
    ensures BatchReady(ix, ready) ==> BatchReady(Fill(ix, order), ready)
    ensures ix.readys == [] ==> BatchReady(Fill(ix, order), ready)
    ensures Fill(ix, order).readys == [] ==> ready == {}
  {
    var f := Fill(ix, order);
    assert forall u :: u in order <==> u in Members(order);
    if ix.readys == [] {
      assert f.up == {};
    }
    if f.readys == [] {
      assert forall u :: u !in ready;
    }
  }

  /** Taking the last unit of the batch leaves only that unit unaccounted for. */
  lemma PopOk(ix: Index, ready: set<UnitId>)
    requires IndexOk(ix, ready) && ix.readys != [] && ix.tReady == {}
    ensures
      var n := |ix.readys| - 1;
      && IndexOn(ix.(readys := ix.readys[..n]), ready, {ix.readys[n]})
      && ix.readys[n] !in ix.readys[..n]
      && (BatchReady(ix, ready) ==> BatchReady(ix.(readys := ix.readys[..n]), ready) && ix.readys[n] in ready)
  {
    var n := |ix.readys| - 1;
    assert ix.readys == ix.readys[..n] + [ix.readys[n]];
  }

  /** The popped unit is no longer ready, in the index or in its record. */
  lemma PoppedSettles(ix: Index, ready: set<UnitId>, u: UnitId)
    requires IndexOn(ix, ready, {u}) && u !in ix.tReady && u !in ix.readys
    ensures IndexOk(ix, ready - {u})
  {
  }

  lemma DropUnitOk(ix: Index, ready: set<UnitId>, pending: set<UnitId>, u: UnitId)
    requires IndexOn(ix, ready, pending)
    ensures IndexOn(DropUnit(ix, u), ready - {u}, pending)
    ensures u !in ready && u !in pending ==> DropUnit(ix, u) == ix
  {
  }
}
