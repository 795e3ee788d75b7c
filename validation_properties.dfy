/** What validateMovement's error list says about a movement, rule group by rule
    group: each error is reported exactly when its condition holds. */
module ValidationProperties {
  import opened Wrappers
  import opened StockTypes
  import opened ValidationRules

  /** validateMovement fails exactly when the movement breaks some rule. */
  lemma FailsIffSomeRuleBroken(config: StockConfig, store: StockStore, now: Date, mov: Movement,
                               checkReference: bool)
    ensures MovementErrors(config, store, now, mov, checkReference) != [] <==>
            exists e :: Violated(e, config, store, now, mov, checkReference)
  {
    var errors := MovementErrors(config, store, now, mov, checkReference);
    MovementErrorsAreBrokenRules(config, store, now, mov, checkReference);
    if errors != [] {
      assert errors[0] in errors;
    }
  }

  /** A movement dated after now is in the future; one dated strictly before the
      last recorded movement is out of order; the same instant as the last
      movement is neither. */
  lemma DateRules(config: StockConfig, store: StockStore, now: Date, mov: Movement, checkReference: bool)
    ensures var errors := MovementErrors(config, store, now, mov, checkReference);
      && (FutureDate in errors <==> mov.date > now)
      && (BeforeLastMovement in errors <==>
            store.lastMovementDate.Some? && mov.date < store.lastMovementDate.value)
      && (store.lastMovementDate == Some(mov.date) ==> BeforeLastMovement !in errors)
  {
    MovementErrorsAreBrokenRules(config, store, now, mov, checkReference);
  }

  /** The movement's own reference is checked only when asked for, and then
      yields at most one error: missing for a blank reference, already used for
      one the store knows. */
  lemma ReferenceRules(config: StockConfig, store: StockStore, now: Date, mov: Movement, checkReference: bool)
    ensures var errors := MovementErrors(config, store, now, mov, checkReference);
      && (ReferenceMissing in errors <==> checkReference && BlankReference(mov.referenceNumber))
      && (ReferenceExists in errors <==>
            checkReference && !BlankReference(mov.referenceNumber)
            && mov.referenceNumber.value in store.referenceNumbers)
      && !(ReferenceMissing in errors && ReferenceExists in errors)
  {
    MovementErrorsAreBrokenRules(config, store, now, mov, checkReference);
  }

  /** A movement without a type gets the type error and no counterparty check; a
      charge needs a supplier and any other typed movement a ward. */
  lemma TypeRules(config: StockConfig, store: StockStore, now: Date, mov: Movement, checkReference: bool)
    ensures var errors := MovementErrors(config, store, now, mov, checkReference);
      && (TypeMissing in errors <==> mov.movementType.None?)
      && (mov.movementType.None? ==> SupplierMissing !in errors && WardMissing !in errors)
      && (SupplierMissing in errors <==> IsCharge(mov) && mov.supplier.None?)
      && (WardMissing in errors <==>
            mov.movementType.Some? && !IsCharge(mov) && mov.ward.None?)
  {
    MovementErrorsAreBrokenRules(config, store, now, mov, checkReference);
  }

  /** The quantity must not be zero and a medical must be chosen. */
  lemma QuantityAndMedicalRules(config: StockConfig, store: StockStore, now: Date, mov: Movement,
                                checkReference: bool)
    ensures var errors := MovementErrors(config, store, now, mov, checkReference);
      && (ZeroQuantity in errors <==> mov.quantity == 0)
      && (MedicalMissing in errors <==> mov.medical.None?)
  {
    MovementErrorsAreBrokenRules(config, store, now, mov, checkReference);
  }

  /** The errors about a lot's fields. */
  predicate LotFieldError(e: ValidationError)
  {
    e == LotCodeTooLong || e == PreparationDateMissing || e == DueDateMissing || e == PreparationAfterDue
  }

  /** A movement without a lot gets the choose-a-lot error and no error about a
      lot's fields or use. */
  lemma MissingLotRule(config: StockConfig, store: StockStore, now: Date, mov: Movement, checkReference: bool)
    ensures var errors := MovementErrors(config, store, now, mov, checkReference);
      && (LotMissing in errors <==> mov.lot.None?)
      && (mov.lot.None? ==>
            forall e :: e in errors && Rank(e) >= FirstLotFieldRule ==> e == LotMissing)
  {
    MovementErrorsAreBrokenRules(config, store, now, mov, checkReference);
  }

  /** An error about the lot's fields is reported exactly when the lot's dates
      are checked and validateLot, told whether to check the code, finds it. */
  lemma LotFieldErrorReported(config: StockConfig, store: StockStore, now: Date, mov: Movement, lot: Lot,
                              checkReference: bool, e: ValidationError)
    requires mov.lot == Some(lot) && LotFieldError(e)
    ensures e in MovementErrors(config, store, now, mov, checkReference) <==>
            LotDatesChecked(config, mov) && LotFieldViolated(e, lot, LotCodeChecked(config, mov))
  {
    MovementErrorsAreBrokenRules(config, store, now, mov, checkReference);
  }

  /** When the caller chose the lot (a charge without automatic lot-in, a
      discharge without automatic lot-out), every field of the lot is checked. */
  lemma ManualLotRules(config: StockConfig, store: StockStore, now: Date, mov: Movement, lot: Lot,
                       checkReference: bool)
    requires mov.lot == Some(lot)
    requires (IsCharge(mov) && !config.automaticLotIn) || (!IsCharge(mov) && !config.automaticLotOut)
    ensures var errors := MovementErrors(config, store, now, mov, checkReference);
      && (LotCodeTooLong in errors <==> Utf16Length(lot.code) >= 50)
      && (PreparationDateMissing in errors <==> lot.preparationDate.None?)
      && (DueDateMissing in errors <==> lot.dueDate.None?)
      && (PreparationAfterDue in errors <==>
            lot.preparationDate.Some? && lot.dueDate.Some? && lot.preparationDate.value > lot.dueDate.value)
  {
    LotFieldErrorReported(config, store, now, mov, lot, checkReference, LotCodeTooLong);
    LotFieldErrorReported(config, store, now, mov, lot, checkReference, PreparationDateMissing);
    LotFieldErrorReported(config, store, now, mov, lot, checkReference, DueDateMissing);
    LotFieldErrorReported(config, store, now, mov, lot, checkReference, PreparationAfterDue);
  }

  /** A charge with automatic lot-in has its lot's dates checked but not its
      code, which will be generated. */
  lemma AutomaticLotInRules(config: StockConfig, store: StockStore, now: Date, mov: Movement, lot: Lot,
                            checkReference: bool)
    requires mov.lot == Some(lot)
    requires IsCharge(mov) && config.automaticLotIn
    ensures var errors := MovementErrors(config, store, now, mov, checkReference);
      && LotCodeTooLong !in errors
      && (PreparationDateMissing in errors <==> lot.preparationDate.None?)
      && (DueDateMissing in errors <==> lot.dueDate.None?)
      && (PreparationAfterDue in errors <==>
            lot.preparationDate.Some? && lot.dueDate.Some? && lot.preparationDate.value > lot.dueDate.value)
  {
    LotFieldErrorReported(config, store, now, mov, lot, checkReference, LotCodeTooLong);
    LotFieldErrorReported(config, store, now, mov, lot, checkReference, PreparationDateMissing);
    LotFieldErrorReported(config, store, now, mov, lot, checkReference, DueDateMissing);
    LotFieldErrorReported(config, store, now, mov, lot, checkReference, PreparationAfterDue);
  }

  /** A discharge with automatic lot-out has no lot field checked, since the lot
      will be selected automatically. */
  lemma AutomaticLotOutRules(config: StockConfig, store: StockStore, now: Date, mov: Movement,
                             checkReference: bool)
    requires !IsCharge(mov) && config.automaticLotOut
    ensures forall e :: e in MovementErrors(config, store, now, mov, checkReference) ==> !LotFieldError(e)
  {
    MovementErrorsAreBrokenRules(config, store, now, mov, checkReference);
  }

  /** With a medical chosen, the lot belongs to another medical exactly when the
      medicals recorded for its code are neither none nor just this one. */
  lemma LotOfAnotherMedicalRule(config: StockConfig, store: StockStore, now: Date, mov: Movement,
                                lot: Lot, medical: Medical, checkReference: bool)
    requires mov.lot == Some(lot) && mov.medical == Some(medical)
    ensures var ids := MedicalsFromLot(store, lot.code);
      LotOfAnotherMedical in MovementErrors(config, store, now, mov, checkReference) <==>
      !(ids == [] || (|ids| == 1 && ids[0] == medical.code))
  {
    MovementErrorsAreBrokenRules(config, store, now, mov, checkReference);
    var ids := MedicalsFromLot(store, lot.code);
    if |ids| == 1 {
      assert ids == [ids[0]];
    }
  }

  /** The cost is checked only on a charge when lots have costs, and is then
      rejected exactly when it is missing or not positive. */
  lemma CostRule(config: StockConfig, store: StockStore, now: Date, mov: Movement, checkReference: bool)
    ensures CostNotPositive in MovementErrors(config, store, now, mov, checkReference) <==>
      mov.lot.Some? && IsCharge(mov) && config.lotWithCost
      && (mov.lot.value.cost.None? || mov.lot.value.cost.value <= 0.0)
  {
    MovementErrorsAreBrokenRules(config, store, now, mov, checkReference);
  }

  /** A typed discharge may take no more than its lot's main-store quantity,
      checked only when lots are not selected automatically. */
  lemma StockRule(config: StockConfig, store: StockStore, now: Date, mov: Movement, checkReference: bool)
    ensures QuantityExceedsLot in MovementErrors(config, store, now, mov, checkReference) <==>
      mov.lot.Some? && !config.automaticLotOut && mov.movementType.Some? && !IsCharge(mov)
      && mov.quantity > mov.lot.value.mainStoreQuantity
  {
    MovementErrorsAreBrokenRules(config, store, now, mov, checkReference);
  }
}
