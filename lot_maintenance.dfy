/** updateLot(List), which updates lots one after the other and returns them in
    the same order, and alertCriticalQuantity, which tells whether taking a
    quantity would leave a medical below its minimum. */
module LotMaintenance {
  import opened Wrappers
  import opened StockTypes
  import opened MovementBatches

  /** The single-lot update the list update delegates to: it saves the lot or
      fails with messages. */
  datatype LotIo = LotIo(updateLot: (StockStore, Lot) -> Result<Saved<Lot>, seq<string>>)

  /** `done` followed by the lots of `rest`, when `rest` succeeded. */
  function PrependLots(done: seq<Lot>, rest: Result<Saved<seq<Lot>>, seq<string>>): (r: Result<Saved<seq<Lot>>, seq<string>>)
    ensures r.Success? <==> rest.Success?
    ensures r.Success? ==> r.value.store == rest.value.store && r.value.value == done + rest.value.value
    ensures rest.Failure? ==> r == rest
  {
    match rest
    case Success(saved) => Success(Saved(saved.store, done + saved.value))
    case Failure(_) => rest
  }

  lemma PrependLotsTwice(a: seq<Lot>, b: seq<Lot>, rest: Result<Saved<seq<Lot>>, seq<string>>)
    ensures PrependLots(a, PrependLots(b, rest)) == PrependLots(a + b, rest)
  {
    if rest.Success? {
      assert a + (b + rest.value.value) == (a + b) + rest.value.value;
    }
  }

  lemma PrependNoLots(rest: Result<Saved<seq<Lot>>, seq<string>>)
    ensures PrependLots([], rest) == rest
  {
    if rest.Success? {
      assert [] + rest.value.value == rest.value.value;
    }
  }

  /** The lots updated one after the other, each against the store the earlier
      updates left; the first failure ends the update with its messages. */
  function UpdatedLots(io: LotIo, store: StockStore, lots: seq<Lot>): Result<Saved<seq<Lot>>, seq<string>>
    decreases |lots|
  {
    if lots == [] then Success(Saved(store, []))
    else match io.updateLot(store, lots[0])
      case Failure(messages) => Failure(messages)
      case Success(saved) => PrependLots([saved.value], UpdatedLots(io, saved.store, lots[1..]))
  }

  lemma UpdatedLotsStep(io: LotIo, store: StockStore, lots: seq<Lot>, i: nat)
    requires i < |lots|
    ensures var updated := io.updateLot(store, lots[i]);
      UpdatedLots(io, store, lots[i..]) ==
        if updated.Failure? then Failure(updated.error)
        else PrependLots([updated.value.value], UpdatedLots(io, updated.value.store, lots[i + 1..]))
  {
    assert lots[i..][0] == lots[i];
    assert lots[i..][1..] == lots[i + 1..];
  }

  /** updateLot(List). */
  method UpdateLots(io: LotIo, store: StockStore, lots: seq<Lot>) returns (r: Result<Saved<seq<Lot>>, seq<string>>)
    ensures r == UpdatedLots(io, store, lots)
  {
    var updatedLots: seq<Lot> := [];
    var current := store;
    var i := 0;
    PrependNoLots(UpdatedLots(io, store, lots));
    while i < |lots|
      invariant 0 <= i <= |lots|
      invariant PrependLots(updatedLots, UpdatedLots(io, current, lots[i..])) == UpdatedLots(io, store, lots)
    {
      var updatedLot := io.updateLot(current, lots[i]);
      UpdatedLotsStep(io, current, lots, i);
      if updatedLot.Failure? {
        return Failure(updatedLot.error);
      }
      PrependLotsTwice(updatedLots, [updatedLot.value.value],
                       UpdatedLots(io, updatedLot.value.store, lots[i + 1..]));
      updatedLots := updatedLots + [updatedLot.value.value];
      current := updatedLot.value.store;
      i := i + 1;
    }
    assert updatedLots + [] == updatedLots;
    return Success(Saved(current, updatedLots));
  }

  /** A successful update returns exactly one lot per input. */
  lemma {:induction false} UpdatedLotsLength(io: LotIo, store: StockStore, lots: seq<Lot>)
    ensures var r := UpdatedLots(io, store, lots);
      r.Success? ==> |r.value.value| == |lots|
    decreases |lots|
  {
    if lots != [] {
      var updated := io.updateLot(store, lots[0]);
      if updated.Success? {
        UpdatedLotsLength(io, updated.value.store, lots[1..]);
      }
    }
  }

  /** The update of `first + rest` is the update of `first`, then, if it
      succeeded, the update of `rest` against the store it left. */
  lemma {:induction false} UpdatedLotsAppend(io: LotIo, store: StockStore, first: seq<Lot>, rest: seq<Lot>)
    ensures var before := UpdatedLots(io, store, first);
      UpdatedLots(io, store, first + rest) ==
      if before.Success? then PrependLots(before.value.value, UpdatedLots(io, before.value.store, rest))
      else before
    decreases |first|
  {
    if first == [] {
      assert first + rest == rest;
      PrependNoLots(UpdatedLots(io, store, rest));
    } else {
      assert (first + rest)[0] == first[0];
      assert (first + rest)[1..] == first[1..] + rest;
      var updated := io.updateLot(store, first[0]);
      if updated.Success? {
        UpdatedLotsAppend(io, updated.value.store, first[1..], rest);
        var tail := UpdatedLots(io, updated.value.store, first[1..]);
        if tail.Success? {
          PrependLotsTwice([updated.value.value], tail.value.value,
                           UpdatedLots(io, tail.value.store, rest));
        }
      }
    }
  }

  /** The `k`-th lot a successful update returns is the `k`-th input as the
      store returned it after the first `k` updates. */
  lemma UpdatedInInputOrder(io: LotIo, store: StockStore, lots: seq<Lot>, k: nat)
    requires k < |lots|
    requires UpdatedLots(io, store, lots).Success?
    ensures var before := UpdatedLots(io, store, lots[..k]);
      && before.Success?
      && var updated := io.updateLot(before.value.store, lots[k]);
      && updated.Success?
      && |UpdatedLots(io, store, lots).value.value| == |lots|
      && UpdatedLots(io, store, lots).value.value[k] == updated.value.value
  {
    assert lots == lots[..k] + lots[k..];
    UpdatedLotsAppend(io, store, lots[..k], lots[k..]);
    UpdatedLotsLength(io, store, lots[..k]);
    UpdatedLotsLength(io, store, lots);
    assert lots[k..][0] == lots[k];
    assert lots[k..][1..] == lots[k + 1..];
  }

  /** A failed update reports the messages of the first lot whose update failed. */
  lemma {:induction false} UpdatedLotsFailure(io: LotIo, store: StockStore, lots: seq<Lot>) returns (k: nat)
    requires UpdatedLots(io, store, lots).Failure?
    ensures k < |lots|
    ensures var before := UpdatedLots(io, store, lots[..k]);
      && before.Success?
      && var updated := io.updateLot(before.value.store, lots[k]);
      && updated.Failure?
      && UpdatedLots(io, store, lots) == Failure(updated.error)
    decreases |lots|
  {
    assert lots[..0] == [];
    var updated := io.updateLot(store, lots[0]);
    if updated.Failure? {
      k := 0;
    } else {
      var rest := lots[1..];
      var j := UpdatedLotsFailure(io, updated.value.store, rest);
      k := j + 1;
      assert lots[..k][0] == lots[0];
      assert lots[..k][1..] == rest[..j];
      assert lots[k] == rest[j];
    }
  }

  // ---------------------------------------------------------------- critical quantity

  /** alertCriticalQuantity: the medical is looked up again by its code, and the
      alert is raised when what would remain after taking `specifiedQuantity`
      is below its minimum. A code the catalog does not hold is the null
      dereference of the looked-up medical, here `None`. */
  function AlertCriticalQuantity(catalog: map<int, Medical>, selected: Medical, specifiedQuantity: int): (r: Option<bool>)
    ensures r.None? <==> selected.code !in catalog
    ensures r.Some? ==> var stored := catalog[selected.code];
      (r.value <==> specifiedQuantity > stored.totalQuantity - stored.minqty)
  {
    if selected.code !in catalog then None
    else
      var medical := catalog[selected.code];
      var residual := medical.totalQuantity - specifiedQuantity;
      Some(residual < medical.minqty)
  }
}
