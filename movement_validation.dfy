/** validateMovement, validateLot and checkReferenceNumber: each appends, step by
    step, the errors it finds to a list, and each is proved to build exactly the
    list that ValidationRules specifies. */
module MovementValidation {
  import opened Wrappers
  import opened StockTypes
  import opened ValidationRules

  /** checkReferenceNumber: at most one error, "insert a reference" for a blank
      reference and "already exists" for one that the store already uses. */
  method CheckReferenceNumber(store: StockStore, referenceNumber: Option<string>)
    returns (errors: seq<ValidationError>)
    ensures errors == ReferenceErrors(store, referenceNumber)
  {
    errors := [];
    if referenceNumber.None? || referenceNumber.value == [] {
      errors := errors + [ReferenceMissing];
    } else {
      if referenceNumber.value in store.referenceNumbers {
        errors := errors + [ReferenceExists];
      }
    }
  }

  /** validateLot: appends to `errors` what is wrong with the lot's fields; the
      code's length is checked only when `checkCode` holds. */
  method ValidateLot(errors: seq<ValidationError>, lot: Lot, checkCode: bool)
    returns (result: seq<ValidationError>)
    ensures result == errors + LotFieldErrors(lot, checkCode)
  {
    result := errors;
    if checkCode && Utf16Length(lot.code) >= 50 {
      result := result + [LotCodeTooLong];
    }
    assert result == errors + LotFieldErrorsUpTo(10, lot, checkCode);
    if lot.preparationDate.None? {
      result := result + [PreparationDateMissing];
    }
    ConcatAssoc(errors, LotFieldErrorsUpTo(10, lot, checkCode),
                When(lot.preparationDate.None?, PreparationDateMissing));
    assert result == errors + LotFieldErrorsUpTo(11, lot, checkCode);
    if lot.dueDate.None? {
      result := result + [DueDateMissing];
    }
    ConcatAssoc(errors, LotFieldErrorsUpTo(11, lot, checkCode), When(lot.dueDate.None?, DueDateMissing));
    assert result == errors + LotFieldErrorsUpTo(12, lot, checkCode);
    ghost var afterDue := lot.preparationDate.Some? && lot.dueDate.Some? && lot.preparationDate.value > lot.dueDate.value;
    if lot.preparationDate.Some? && lot.dueDate.Some? && lot.preparationDate.value > lot.dueDate.value {
      result := result + [PreparationAfterDue];
    }
    ConcatAssoc(errors, LotFieldErrorsUpTo(12, lot, checkCode), When(afterDue, PreparationAfterDue));
  }

  /** The date checks of validateMovement. */
  method CheckDate(errors: seq<ValidationError>, store: StockStore, now: Date, movement: Movement)
    returns (result: seq<ValidationError>)
    ensures result == errors + DateErrors(store, now, movement)
  {
    result := errors;
    var movDate := movement.date;
    var lastDate := store.lastMovementDate;
    if movDate > now {
      result := result + [FutureDate];
    }
    if lastDate.Some? && movDate < lastDate.value {
      result := result + [BeforeLastMovement];
    }
    ConcatAssoc(errors, When(movDate > now, FutureDate),
                When(lastDate.Some? && movDate < lastDate.value, BeforeLastMovement));
  }

  /** The type and counterparty checks of validateMovement, which also decide whether the
      movement is a charge. */
  method CheckMovementType(errors: seq<ValidationError>, movement: Movement)
    returns (result: seq<ValidationError>, isCharge: bool)
    ensures isCharge == IsCharge(movement)
    ensures result == errors + TypeErrors(movement)
  {
    result := errors;
    isCharge := false;
    if movement.movementType.None? {
      result := result + [TypeMissing];
    } else {
      isCharge := '+' in movement.movementType.value.code;
      if isCharge {
        if movement.supplier.None? {
          result := result + [SupplierMissing];
        }
      } else {
        if movement.ward.None? {
          result := result + [WardMissing];
        }
      }
    }
  }

  /** The quantity and medical checks of validateMovement. */
  method CheckQuantityAndMedical(errors: seq<ValidationError>, movement: Movement)
    returns (result: seq<ValidationError>)
    ensures result == errors + QuantityAndMedicalErrors(movement)
  {
    result := errors;
    if movement.quantity == 0 {
      result := result + [ZeroQuantity];
    }
    if movement.medical.None? {
      result := result + [MedicalMissing];
    }
    ConcatAssoc(errors, When(movement.quantity == 0, ZeroQuantity), When(movement.medical.None?, MedicalMissing));
  }

  /** The checks of a present lot's fields in validateMovement: all of them when
      the caller chose the lot, all but the code on a charge with automatic lot-in. */
  method CheckLotFields(errors: seq<ValidationError>, config: StockConfig, movement: Movement, lot: Lot,
                        isCharge: bool)
    returns (result: seq<ValidationError>)
    requires isCharge == IsCharge(movement)
    ensures result == errors + LotFieldChecks(config, movement, lot)
  {
    result := errors;
    if (isCharge && !config.automaticLotIn) || (!isCharge && !config.automaticLotOut) {
      // every field is checked
      result := ValidateLot(result, lot, true);
    }
    if isCharge && config.automaticLotIn {
      // a generated code is not checked; the dates are
      result := ValidateLot(result, lot, false);
    }
  }

  /** The checks of a present lot's use in validateMovement. */
  method CheckLotUse(errors: seq<ValidationError>, config: StockConfig, store: StockStore, movement: Movement,
                     lot: Lot, isCharge: bool)
    returns (result: seq<ValidationError>)
    requires isCharge == IsCharge(movement)
    ensures result == errors + LotUseErrors(config, store, movement, lot)
  {
    result := errors;
    // the lot code must be unique per lot and medical
    var medicalIds := MedicalsFromLot(store, lot.code);
    ghost var sameMedical := movement.medical.Some? && medicalIds == [movement.medical.value.code];
    if movement.medical.Some?
       && !(medicalIds == [] || (|medicalIds| == 1 && medicalIds[0] == movement.medical.value.code))
    {
      result := result + [LotOfAnotherMedical];
    }
    assert movement.medical.Some? ==>
           ((|medicalIds| == 1 && medicalIds[0] == movement.medical.value.code) <==> sameMedical) by {
      if |medicalIds| == 1 { assert medicalIds == [medicalIds[0]]; }
    }
    ghost var other := result;
    // the cost of a charge, when lots have costs
    if isCharge && config.lotWithCost {
      if lot.cost.None? || lot.cost.value <= 0.0 {
        result := result + [CostNotPositive];
      }
    }
    // the quantity, unless lots are split automatically
    ghost var cost := result;
    if !config.automaticLotOut {
      if movement.movementType.Some? && !isCharge && movement.quantity > lot.mainStoreQuantity {
        result := result + [QuantityExceedsLot];
      }
    }
    ghost var otherError := When(movement.medical.Some? && !(medicalIds == [] || sameMedical), LotOfAnotherMedical);
    ghost var costError := When(isCharge && config.lotWithCost && (lot.cost.None? || lot.cost.value <= 0.0),
                                CostNotPositive);
    ghost var stockError := When(!config.automaticLotOut && movement.movementType.Some? && !isCharge
                                 && movement.quantity > lot.mainStoreQuantity, QuantityExceedsLot);
    assert other == errors + otherError;
    assert cost == other + costError;
    assert result == cost + stockError;
    ConcatAssoc(errors, otherError, costError);
    ConcatAssoc(errors, otherError + costError, stockError);
  }

  /** The lot checks of validateMovement. */
  method CheckLot(errors: seq<ValidationError>, config: StockConfig, store: StockStore, movement: Movement,
                  isCharge: bool)
    returns (result: seq<ValidationError>)
    requires isCharge == IsCharge(movement)
    ensures result == errors + LotErrors(config, store, movement)
  {
    var lot := movement.lot;
    if lot.Some? {
      result := CheckLotFields(errors, config, movement, lot.value, isCharge);
      result := CheckLotUse(result, config, store, movement, lot.value, isCharge);
      ConcatAssoc(errors, LotFieldChecks(config, movement, lot.value), LotUseErrors(config, store, movement, lot.value));
    } else {
      result := errors + [LotMissing];
    }
  }

  /** validateMovement: collects every broken rule, in check order, without
      stopping at the first, and fails exactly when it found one. */
  method ValidateMovement(config: StockConfig, store: StockStore, now: Date, movement: Movement,
                          checkReference: bool)
    returns (r: Outcome<seq<ValidationError>>)
    ensures r.Fail? <==> MovementErrors(config, store, now, movement, checkReference) != []
    ensures r.Fail? ==> r.error == MovementErrors(config, store, now, movement, checkReference)
  {
    var errors: seq<ValidationError> := [];
    errors := CheckDate(errors, store, now, movement);
    assert errors == DateErrors(store, now, movement);
    if checkReference {
      var refErrors := CheckReferenceNumber(store, movement.referenceNumber);
      errors := errors + refErrors;
    }
    assert errors == DateErrors(store, now, movement) + CheckedReferenceErrors(store, movement, checkReference);
    var isCharge;
    errors, isCharge := CheckMovementType(errors, movement);
    errors := CheckQuantityAndMedical(errors, movement);
    errors := CheckLot(errors, config, store, movement, isCharge);
    GroupedErrorsAreMovementErrors(config, store, now, movement, checkReference);
    if errors != [] {
      r := Fail(errors);
    } else {
      r := Pass;
    }
  }
}
