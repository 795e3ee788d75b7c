/** newMultipleChargingMovements and newMultipleDischargingMovements: validate and
    prepare a list of movements one after the other, stop at the first that
    fails, and either return every prepared movement or reject the whole batch.

    The stock database is a StockStore value; the persistence operations the
    batches delegate to are the oracles of a StockIo record. A rejected batch
    carries no store: the transaction is rolled back and the store the caller
    holds is unchanged. */
module MovementBatches {
  import opened Wrappers
  import opened StockTypes
  import opened ValidationRules
  import opened MovementValidation

  /** A value together with the store after it was saved. */
  datatype Saved<T> = Saved(store: StockStore, value: T)

  /** The persistence operations: preparing a charge, preparing a manual
      discharge, and splitting an automatic discharge over the medical's lots.
      Each either saves or fails with messages. */
  datatype StockIo = StockIo(
    prepareCharging: (StockStore, Movement) -> Result<Saved<Movement>, seq<string>>,
    prepareDischarging: (StockStore, Movement) -> Result<Saved<Movement>, seq<string>>,
    automaticDischarging: (StockStore, Movement) -> Result<Saved<seq<Movement>>, seq<string>>)

  /** The outcome of a batch: the store and the prepared movements, a rejection
      with its messages, or the null dereference of the discharging batch. */
  datatype BatchResult =
    | Inserted(store: StockStore, movements: seq<Movement>)
    | Rejected(messages: seq<Message>)
    | NullPointer

  /** `done` followed by the movements of `rest`, when `rest` succeeded. */
  function Prepend(done: seq<Movement>, rest: BatchResult): (r: BatchResult)
    ensures r.Inserted? <==> rest.Inserted?
    ensures r.Inserted? ==> r.store == rest.store && r.movements == done + rest.movements
    ensures !rest.Inserted? ==> r == rest
  {
    match rest
    case Inserted(store, movements) => Inserted(store, done + movements)
    case _ => rest
  }

  lemma PrependPrepend(a: seq<Movement>, b: seq<Movement>, rest: BatchResult)
    ensures Prepend(a, Prepend(b, rest)) == Prepend(a + b, rest)
  {
    if rest.Inserted? {
      assert a + (b + rest.movements) == (a + b) + rest.movements;
    }
  }

  // ---------------------------------------------------------------- one movement

  /** prepareChargingMovement: the movement is validated, and only a valid one is
      handed to the store. */
  function PreparedCharge(config: StockConfig, io: StockIo, store: StockStore, now: Date, mov: Movement,
                          checkReference: bool): Result<Saved<Movement>, seq<Message>>
  {
    var errors := MovementErrors(config, store, now, mov, checkReference);
    if errors != [] then Failure(AsMessages(errors))
    else match io.prepareCharging(store, mov)
      case Success(saved) => Success(saved)
      case Failure(texts) => Failure(AsStorageMessages(texts))
  }

  /** prepareDishargingMovement: the movement is validated; a valid one is split
      over the medical's lots when lots are selected automatically on discharge,
      and otherwise prepared as the only movement. */
  function PreparedDischarge(config: StockConfig, io: StockIo, store: StockStore, now: Date, mov: Movement,
                             checkReference: bool): Result<Saved<seq<Movement>>, seq<Message>>
  {
    var errors := MovementErrors(config, store, now, mov, checkReference);
    if errors != [] then Failure(AsMessages(errors))
    else if config.automaticLotOut then
      match io.automaticDischarging(store, mov)
      case Success(saved) => Success(saved)
      case Failure(texts) => Failure(AsStorageMessages(texts))
    else
      match io.prepareDischarging(store, mov)
      case Success(saved) => Success(Saved(saved.store, [saved.value]))
      case Failure(texts) => Failure(AsStorageMessages(texts))
  }

  method PrepareChargingMovement(config: StockConfig, io: StockIo, store: StockStore, now: Date,
                                 movement: Movement, checkReference: bool)
    returns (r: Result<Saved<Movement>, seq<Message>>)
    ensures r == PreparedCharge(config, io, store, now, movement, checkReference)
  {
    var validation := ValidateMovement(config, store, now, movement, checkReference);
    if validation.Fail? {
      return Failure(AsMessages(validation.error));
    }
    var saved := io.prepareCharging(store, movement);
    if saved.Failure? {
      return Failure(AsStorageMessages(saved.error));
    }
    return Success(saved.value);
  }

  method PrepareDischargingMovement(config: StockConfig, io: StockIo, store: StockStore, now: Date,
                                    movement: Movement, checkReference: bool)
    returns (r: Result<Saved<seq<Movement>>, seq<Message>>)
    ensures r == PreparedDischarge(config, io, store, now, movement, checkReference)
  {
    var validation := ValidateMovement(config, store, now, movement, checkReference);
    if validation.Fail? {
      return Failure(AsMessages(validation.error));
    }
    if config.automaticLotOut {
      var split := io.automaticDischarging(store, movement);
      if split.Failure? {
        return Failure(AsStorageMessages(split.error));
      }
      return Success(split.value);
    } else {
      var prepared := io.prepareDischarging(store, movement);
      if prepared.Failure? {
        return Failure(AsStorageMessages(prepared.error));
      }
      var dischargeMovement := [prepared.value.value];
      return Success(Saved(prepared.value.store, dischargeMovement));
    }
  }

  // ---------------------------------------------------------------- batches

  /** The message naming the failed movement in the charging batch: its
      medical's description, or a placeholder when it has no medical. */
  function ChargeDescription(mov: Movement): Message
  {
    if mov.medical.Some? then Description(mov.medical.value.description) else NoDescription
  }

  /** The charging loop: each movement is prepared against the store the earlier
      ones left, and the first failure rejects the batch with its messages and
      the movement's description. */
  function ChargeAll(config: StockConfig, io: StockIo, store: StockStore, now: Date, movements: seq<Movement>,
                     checkReference: bool): BatchResult
    decreases |movements|
  {
    if movements == [] then Inserted(store, [])
    else match PreparedCharge(config, io, store, now, movements[0], checkReference)
      case Failure(messages) => Rejected(messages + [ChargeDescription(movements[0])])
      case Success(saved) =>
        Prepend([saved.value], ChargeAll(config, io, saved.store, now, movements[1..], checkReference))
  }

  /** The discharging loop: as the charging one, except that every prepared
      discharge contributes all its movements, and that the failed movement's
      medical is dereferenced without a check. */
  function DischargeAll(config: StockConfig, io: StockIo, store: StockStore, now: Date, movements: seq<Movement>,
                        checkReference: bool): BatchResult
    decreases |movements|
  {
    if movements == [] then Inserted(store, [])
    else match PreparedDischarge(config, io, store, now, movements[0], checkReference)
      case Failure(messages) =>
        if movements[0].medical.None? then NullPointer
        else Rejected(messages + [Description(movements[0].medical.value.description)])
      case Success(saved) =>
        Prepend(saved.value, DischargeAll(config, io, saved.store, now, movements[1..], checkReference))
  }

  /** newMultipleChargingMovements: a shared reference number is checked once, up
      front; without one, every movement's own reference is checked. */
  function MultipleCharging(config: StockConfig, io: StockIo, store: StockStore, now: Date,
                            movements: seq<Movement>, referenceNumber: Option<string>): BatchResult
  {
    var checkReference := referenceNumber.None?;
    if !checkReference && ReferenceErrors(store, referenceNumber) != [] then
      Rejected(AsMessages(ReferenceErrors(store, referenceNumber)))
    else ChargeAll(config, io, store, now, movements, checkReference)
  }

  /** newMultipleDischargingMovements, with the same reference rule as charging. */
  function MultipleDischarging(config: StockConfig, io: StockIo, store: StockStore, now: Date,
                               movements: seq<Movement>, referenceNumber: Option<string>): BatchResult
  {
    var checkReference := referenceNumber.None?;
    if !checkReference && ReferenceErrors(store, referenceNumber) != [] then
      Rejected(AsMessages(ReferenceErrors(store, referenceNumber)))
    else DischargeAll(config, io, store, now, movements, checkReference)
  }

  /** One step of the charging loop. */
  lemma ChargeAllStep(config: StockConfig, io: StockIo, store: StockStore, now: Date, movements: seq<Movement>,
                      i: nat, checkReference: bool)
    requires i < |movements|
    ensures var prepared := PreparedCharge(config, io, store, now, movements[i], checkReference);
      ChargeAll(config, io, store, now, movements[i..], checkReference) ==
        if prepared.Failure? then Rejected(prepared.error + [ChargeDescription(movements[i])])
        else Prepend([prepared.value.value],
                     ChargeAll(config, io, prepared.value.store, now, movements[i + 1..], checkReference))
  {
    assert movements[i..][0] == movements[i];
    assert movements[i..][1..] == movements[i + 1..];
  }

  /** One step of the discharging loop. */
  lemma DischargeAllStep(config: StockConfig, io: StockIo, store: StockStore, now: Date, movements: seq<Movement>,
                         i: nat, checkReference: bool)
    requires i < |movements|
    ensures var prepared := PreparedDischarge(config, io, store, now, movements[i], checkReference);
      DischargeAll(config, io, store, now, movements[i..], checkReference) ==
        if prepared.Failure? then
          (if movements[i].medical.None? then NullPointer
           else Rejected(prepared.error + [Description(movements[i].medical.value.description)]))
        else Prepend(prepared.value.value,
                     DischargeAll(config, io, prepared.value.store, now, movements[i + 1..], checkReference))
  {
    assert movements[i..][0] == movements[i];
    assert movements[i..][1..] == movements[i + 1..];
  }

  method NewMultipleChargingMovements(config: StockConfig, io: StockIo, store: StockStore, now: Date,
                                      movements: seq<Movement>, referenceNumber: Option<string>)
    returns (r: BatchResult)
    ensures r == MultipleCharging(config, io, store, now, movements, referenceNumber)
  {
    var checkReference := referenceNumber.None?;
    if !checkReference {
      var errors := CheckReferenceNumber(store, referenceNumber);
      if errors != [] {
        return Rejected(AsMessages(errors));
      }
    }
    r := ChargeEachMovement(config, io, store, now, movements, checkReference);
  }

  /** The loop of newMultipleChargingMovements over the movements, once the
      shared reference, if any, has been accepted. */
  method ChargeEachMovement(config: StockConfig, io: StockIo, store: StockStore, now: Date,
                      movements: seq<Movement>, checkReference: bool)
    returns (r: BatchResult)
    ensures r == ChargeAll(config, io, store, now, movements, checkReference)
  {
    var insertedMovements: seq<Movement> := [];
    var current := store;
    var i := 0;
    while i < |movements|
      invariant 0 <= i <= |movements|
      invariant Prepend(insertedMovements, ChargeAll(config, io, current, now, movements[i..], checkReference))
                == ChargeAll(config, io, store, now, movements, checkReference)
    {
      var mov := movements[i];
      var prepared := PrepareChargingMovement(config, io, current, now, mov, checkReference);
      ChargeAllStep(config, io, current, now, movements, i, checkReference);
      if prepared.Failure? {
        return Rejected(prepared.error + [ChargeDescription(mov)]);
      }
      PrependPrepend(insertedMovements, [prepared.value.value],
                     ChargeAll(config, io, prepared.value.store, now, movements[i + 1..], checkReference));
      insertedMovements := insertedMovements + [prepared.value.value];
      current := prepared.value.store;
      i := i + 1;
    }
    return Inserted(current, insertedMovements);
  }

  method NewMultipleDischargingMovements(config: StockConfig, io: StockIo, store: StockStore, now: Date,
                                         movements: seq<Movement>, referenceNumber: Option<string>)
    returns (r: BatchResult)
    ensures r == MultipleDischarging(config, io, store, now, movements, referenceNumber)
  {
    var checkReference := referenceNumber.None?;
    if !checkReference {
      var errors := CheckReferenceNumber(store, referenceNumber);
      if errors != [] {
        return Rejected(AsMessages(errors));
      }
    }
    r := DischargeEachMovement(config, io, store, now, movements, checkReference);
  }

  /** The loop of newMultipleDischargingMovements over the movements, once the
      shared reference, if any, has been accepted. */
  method DischargeEachMovement(config: StockConfig, io: StockIo, store: StockStore, now: Date,
                      movements: seq<Movement>, checkReference: bool)
    returns (r: BatchResult)
    ensures r == DischargeAll(config, io, store, now, movements, checkReference)
  {
    var dischargingMovements: seq<Movement> := [];
    var current := store;
    var i := 0;
    while i < |movements|
      invariant 0 <= i <= |movements|
      invariant Prepend(dischargingMovements, DischargeAll(config, io, current, now, movements[i..], checkReference))
                == DischargeAll(config, io, store, now, movements, checkReference)
    {
      var mov := movements[i];
      var prepared := PrepareDischargingMovement(config, io, current, now, mov, checkReference);
      DischargeAllStep(config, io, current, now, movements, i, checkReference);
      if prepared.Failure? {
        if mov.medical.None? {
          return NullPointer;
        }
        return Rejected(prepared.error + [Description(mov.medical.value.description)]);
      }
      PrependPrepend(dischargingMovements, prepared.value.value,
                     DischargeAll(config, io, prepared.value.store, now, movements[i + 1..], checkReference));
      dischargingMovements := dischargingMovements + prepared.value.value;
      current := prepared.value.store;
      i := i + 1;
    }
    return Inserted(current, dischargingMovements);
  }
}
