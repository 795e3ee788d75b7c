/** The rules a stock movement must obey, stated one rule at a time, and the
    error list that validation reports: every broken rule, in the fixed order in
    which the rules are checked. */
module ValidationRules {
  import opened Wrappers
  import opened StockTypes

  /** The number of rules validateMovement checks. */
  const RuleCount: nat := 17

  /** The `k`-th rule validateMovement checks. */
  function RuleAt(k: nat): ValidationError
    requires k < RuleCount
  {
    if k == 0 then FutureDate
    else if k == 1 then BeforeLastMovement
    else if k == 2 then ReferenceMissing
    else if k == 3 then ReferenceExists
    else if k == 4 then TypeMissing
    else if k == 5 then SupplierMissing
    else if k == 6 then WardMissing
    else if k == 7 then ZeroQuantity
    else if k == 8 then MedicalMissing
    else if k == 9 then LotCodeTooLong
    else if k == 10 then PreparationDateMissing
    else if k == 11 then DueDateMissing
    else if k == 12 then PreparationAfterDue
    else if k == 13 then LotOfAnotherMedical
    else if k == 14 then CostNotPositive
    else if k == 15 then QuantityExceedsLot
    else LotMissing
  }

  /** validateLot checks the rules from position FirstLotFieldRule up to, and not including, EndLotFieldRules. */
  const FirstLotFieldRule: nat := 9
  const EndLotFieldRules: nat := 13

  /** The position at which validateMovement checks a rule. */
  function Rank(e: ValidationError): (k: nat)
    ensures k < RuleCount && RuleAt(k) == e
  {
    match e
    case FutureDate => 0
    case BeforeLastMovement => 1
    case ReferenceMissing => 2
    case ReferenceExists => 3
    case TypeMissing => 4
    case SupplierMissing => 5
    case WardMissing => 6
    case ZeroQuantity => 7
    case MedicalMissing => 8
    case LotCodeTooLong => 9
    case PreparationDateMissing => 10
    case DueDateMissing => 11
    case PreparationAfterDue => 12
    case LotOfAnotherMedical => 13
    case CostNotPositive => 14
    case QuantityExceedsLot => 15
    case LotMissing => 16
  }

  /** Each position holds a different rule. */
  lemma RankOfRuleAt(k: nat)
    requires k < RuleCount
    ensures Rank(RuleAt(k)) == k
  {
  }

  /** The one-element error list `[e]` when `broken`, otherwise no error. */
  function When(broken: bool, e: ValidationError): seq<ValidationError>
  {
    if broken then [e] else []
  }

  // ---------------------------------------------------------------- reference numbers

  /** A reference number is blank when it is null or empty. */
  predicate BlankReference(referenceNumber: Option<string>)
  {
    referenceNumber.None? || referenceNumber.value == []
  }

  /** The errors of checkReferenceNumber: a blank reference must be inserted, and a
      non-blank one must not already be used by a movement in the store. */
  function ReferenceErrors(store: StockStore, referenceNumber: Option<string>): (r: seq<ValidationError>)
    ensures |r| <= 1
    ensures r == [ReferenceMissing] <==> BlankReference(referenceNumber)
    ensures r == [ReferenceExists] <==> !BlankReference(referenceNumber) && referenceNumber.value in store.referenceNumbers
    ensures r == [] <==> !BlankReference(referenceNumber) && referenceNumber.value !in store.referenceNumbers
  {
    if BlankReference(referenceNumber) then [ReferenceMissing]
    else if referenceNumber.value in store.referenceNumbers then [ReferenceExists]
    else []
  }

  // ---------------------------------------------------------------- lot fields

  /** Whether validateLot, called with `checkCode`, reports `e` for `lot`. */
  predicate LotFieldViolated(e: ValidationError, lot: Lot, checkCode: bool)
  {
    match e
    case LotCodeTooLong => checkCode && Utf16Length(lot.code) >= 50
    case PreparationDateMissing => lot.preparationDate.None?
    case DueDateMissing => lot.dueDate.None?
    case PreparationAfterDue =>
      lot.preparationDate.Some? && lot.dueDate.Some? && lot.preparationDate.value > lot.dueDate.value
    case _ => false
  }

  /** The errors validateLot finds for `lot` among the lot-field rules checked before
      position `k` (positions FirstLotFieldRule to EndLotFieldRules - 1), in check order. */
  function LotFieldErrorsUpTo(k: nat, lot: Lot, checkCode: bool): seq<ValidationError>
    requires FirstLotFieldRule <= k <= EndLotFieldRules
  {
    if k == FirstLotFieldRule then []
    else LotFieldErrorsUpTo(k - 1, lot, checkCode)
         + When(LotFieldViolated(RuleAt(k - 1), lot, checkCode), RuleAt(k - 1))
  }

  /** The errors validateLot appends for `lot`. */
  function LotFieldErrors(lot: Lot, checkCode: bool): seq<ValidationError>
  {
    LotFieldErrorsUpTo(EndLotFieldRules, lot, checkCode)
  }

  lemma {:induction false} LotFieldErrorsUpToMembers(k: nat, lot: Lot, checkCode: bool)
    requires FirstLotFieldRule <= k <= EndLotFieldRules
    ensures forall e :: e in LotFieldErrorsUpTo(k, lot, checkCode) <==>
                        FirstLotFieldRule <= Rank(e) < k && LotFieldViolated(e, lot, checkCode)
  {
    if k > FirstLotFieldRule {
      LotFieldErrorsUpToMembers(k - 1, lot, checkCode);
      RankOfRuleAt(k - 1);
    }
  }

  /** validateLot reports exactly the lot-field rules the lot breaks: a code of
      50 characters or more when the code is checked, a missing preparation or
      due date, a preparation date after the due date. */
  lemma LotFieldErrorsAreBrokenRules(lot: Lot, checkCode: bool)
    ensures forall e :: e in LotFieldErrors(lot, checkCode) <==> LotFieldViolated(e, lot, checkCode)
  {
    LotFieldErrorsUpToMembers(EndLotFieldRules, lot, checkCode);
  }

  /** validateLot reports the broken lot-field rules in check order. */
  lemma {:induction false} LotFieldErrorsUpToOrdered(k: nat, lot: Lot, checkCode: bool)
    requires FirstLotFieldRule <= k <= EndLotFieldRules
    ensures InCheckOrder(LotFieldErrorsUpTo(k, lot, checkCode))
  {
    if k > FirstLotFieldRule {
      var before := LotFieldErrorsUpTo(k - 1, lot, checkCode);
      var r := LotFieldErrorsUpTo(k, lot, checkCode);
      LotFieldErrorsUpToOrdered(k - 1, lot, checkCode);
      LotFieldErrorsUpToMembers(k - 1, lot, checkCode);
      RankOfRuleAt(k - 1);
      forall i, j | 0 <= i < j < |r| ensures Rank(r[i]) < Rank(r[j]) {
        if j >= |before| {
          assert r[i] == before[i] && before[i] in before;
          assert r[j] == RuleAt(k - 1);
        } else {
          assert r[i] == before[i] && r[j] == before[j];
        }
      }
    }
  }

  /** The lot's dates are checked unless the movement is not a charge and lots
      are selected automatically on discharge. */
  predicate LotDatesChecked(config: StockConfig, mov: Movement)
  {
    IsCharge(mov) || !config.automaticLotOut
  }

  /** The lot's code is checked when the caller supplies the lot: on a charge
      without automatic lot-in, on anything else without automatic lot-out. */
  predicate LotCodeChecked(config: StockConfig, mov: Movement)
  {
    if IsCharge(mov) then !config.automaticLotIn else !config.automaticLotOut
  }

  // ---------------------------------------------------------------- all rules

  /** Whether rule `e` is broken by `mov`, judged at time `now` against `store`;
      `checkReference` says whether the movement's own reference number is checked. */
  predicate Violated(e: ValidationError, config: StockConfig, store: StockStore, now: Date,
                     mov: Movement, checkReference: bool)
  {
    match e
    case FutureDate => mov.date > now
    case BeforeLastMovement =>
      store.lastMovementDate.Some? && mov.date < store.lastMovementDate.value
    case ReferenceMissing => checkReference && BlankReference(mov.referenceNumber)
    case ReferenceExists =>
      checkReference && !BlankReference(mov.referenceNumber)
      && mov.referenceNumber.value in store.referenceNumbers
    case TypeMissing => mov.movementType.None?
    case SupplierMissing => IsCharge(mov) && mov.supplier.None?
    case WardMissing => mov.movementType.Some? && !IsCharge(mov) && mov.ward.None?
    case ZeroQuantity => mov.quantity == 0
    case MedicalMissing => mov.medical.None?
    case LotCodeTooLong =>
      mov.lot.Some? && LotDatesChecked(config, mov)
      && LotFieldViolated(e, mov.lot.value, LotCodeChecked(config, mov))
    case PreparationDateMissing =>
      mov.lot.Some? && LotDatesChecked(config, mov)
      && LotFieldViolated(e, mov.lot.value, LotCodeChecked(config, mov))
    case DueDateMissing =>
      mov.lot.Some? && LotDatesChecked(config, mov)
      && LotFieldViolated(e, mov.lot.value, LotCodeChecked(config, mov))
    case PreparationAfterDue =>
      mov.lot.Some? && LotDatesChecked(config, mov)
      && LotFieldViolated(e, mov.lot.value, LotCodeChecked(config, mov))
    case LotOfAnotherMedical =>
      mov.lot.Some? && mov.medical.Some?
      && var ids := MedicalsFromLot(store, mov.lot.value.code);
         !(ids == [] || ids == [mov.medical.value.code])
    case CostNotPositive =>
      mov.lot.Some? && IsCharge(mov) && config.lotWithCost
      && (mov.lot.value.cost.None? || mov.lot.value.cost.value <= 0.0)
    case QuantityExceedsLot =>
      mov.lot.Some? && !config.automaticLotOut && mov.movementType.Some? && !IsCharge(mov)
      && mov.quantity > mov.lot.value.mainStoreQuantity
    case LotMissing => mov.lot.None?
  }

  /** The broken rules among the first `k` rules checked, in check order. */
  function ErrorsUpTo(k: nat, config: StockConfig, store: StockStore, now: Date, mov: Movement,
                      checkReference: bool): seq<ValidationError>
    requires k <= RuleCount
  {
    if k == 0 then []
    else ErrorsUpTo(k - 1, config, store, now, mov, checkReference)
         + When(Violated(RuleAt(k - 1), config, store, now, mov, checkReference), RuleAt(k - 1))
  }

  /** The error list of validateMovement: every broken rule, in check order. */
  function MovementErrors(config: StockConfig, store: StockStore, now: Date, mov: Movement,
                          checkReference: bool): seq<ValidationError>
  {
    ErrorsUpTo(RuleCount, config, store, now, mov, checkReference)
  }

  // ---------------------------------------------------------------- the error list, group by group

  /** The date checks: not in the future, not before the last recorded movement. */
  function DateErrors(store: StockStore, now: Date, mov: Movement): seq<ValidationError>
  {
    When(mov.date > now, FutureDate)
    + When(store.lastMovementDate.Some? && mov.date < store.lastMovementDate.value, BeforeLastMovement)
  }

  /** The reference check: the movement's own reference, when it is checked at all. */
  function CheckedReferenceErrors(store: StockStore, mov: Movement, checkReference: bool): seq<ValidationError>
  {
    if checkReference then ReferenceErrors(store, mov.referenceNumber) else []
  }

  /** The type checks: a type is needed; a charge needs a supplier, anything
      else a ward. */
  function TypeErrors(mov: Movement): seq<ValidationError>
  {
    if mov.movementType.None? then [TypeMissing]
    else if IsCharge(mov) then When(mov.supplier.None?, SupplierMissing)
    else When(mov.ward.None?, WardMissing)
  }

  /** The quantity must not be zero and a medical must be chosen. */
  function QuantityAndMedicalErrors(mov: Movement): seq<ValidationError>
  {
    When(mov.quantity == 0, ZeroQuantity) + When(mov.medical.None?, MedicalMissing)
  }

  /** The lot's fields, checked as the movement's kind and the lot modes say. */
  function LotFieldChecks(config: StockConfig, mov: Movement, lot: Lot): seq<ValidationError>
  {
    if LotDatesChecked(config, mov) then LotFieldErrors(lot, LotCodeChecked(config, mov)) else []
  }

  /** What the lot is used for: its code belongs to no other medical, a charge
      with lot costs has a positive cost, a manual discharge takes no more than
      the lot holds. */
  function LotUseErrors(config: StockConfig, store: StockStore, mov: Movement, lot: Lot): seq<ValidationError>
  {
    var ids := MedicalsFromLot(store, lot.code);
    When(mov.medical.Some? && !(ids == [] || ids == [mov.medical.value.code]), LotOfAnotherMedical)
    + When(IsCharge(mov) && config.lotWithCost && (lot.cost.None? || lot.cost.value <= 0.0), CostNotPositive)
    + When(!config.automaticLotOut && mov.movementType.Some? && !IsCharge(mov)
           && mov.quantity > lot.mainStoreQuantity, QuantityExceedsLot)
  }

  /** The lot checks: a lot is needed, and then its fields and its use are checked. */
  function LotErrors(config: StockConfig, store: StockStore, mov: Movement): seq<ValidationError>
  {
    if mov.lot.None? then [LotMissing]
    else LotFieldChecks(config, mov, mov.lot.value) + LotUseErrors(config, store, mov, mov.lot.value)
  }

  /** The error list of validateMovement, group by group in the order it checks them. */
  function GroupedErrors(config: StockConfig, store: StockStore, now: Date, mov: Movement,
                          checkReference: bool): seq<ValidationError>
  {
    DateErrors(store, now, mov)
    + CheckedReferenceErrors(store, mov, checkReference)
    + TypeErrors(mov)
    + QuantityAndMedicalErrors(mov)
    + LotErrors(config, store, mov)
  }

  // ---------------------------------------------------------------- what the error list is

  lemma {:induction false} ErrorsUpToMembers(k: nat, config: StockConfig, store: StockStore, now: Date,
                                             mov: Movement, checkReference: bool)
    requires k <= RuleCount
    ensures forall e :: e in ErrorsUpTo(k, config, store, now, mov, checkReference) <==>
                        Rank(e) < k && Violated(e, config, store, now, mov, checkReference)
  {
    if k > 0 {
      ErrorsUpToMembers(k - 1, config, store, now, mov, checkReference);
      RankOfRuleAt(k - 1);
    }
  }

  /** The errors of `r` appear in the order in which their rules are checked, each at most once. */
  predicate InCheckOrder(r: seq<ValidationError>)
  {
    forall i, j :: 0 <= i < j < |r| ==> Rank(r[i]) < Rank(r[j])
  }

  lemma {:induction false} ErrorsUpToOrdered(k: nat, config: StockConfig, store: StockStore, now: Date,
                                             mov: Movement, checkReference: bool)
    requires k <= RuleCount
    ensures InCheckOrder(ErrorsUpTo(k, config, store, now, mov, checkReference))
  {
    if k > 0 {
      var before := ErrorsUpTo(k - 1, config, store, now, mov, checkReference);
      var r := ErrorsUpTo(k, config, store, now, mov, checkReference);
      ErrorsUpToOrdered(k - 1, config, store, now, mov, checkReference);
      ErrorsUpToMembers(k - 1, config, store, now, mov, checkReference);
      RankOfRuleAt(k - 1);
      forall i, j | 0 <= i < j < |r| ensures Rank(r[i]) < Rank(r[j]) {
        if j >= |before| {
          assert r[i] == before[i] && before[i] in before;
          assert r[j] == RuleAt(k - 1);
        } else {
          assert r[i] == before[i] && r[j] == before[j];
        }
      }
    }
  }

  /** validateMovement reports a rule exactly when the movement breaks it. */
  lemma MovementErrorsAreBrokenRules(config: StockConfig, store: StockStore, now: Date, mov: Movement,
                                     checkReference: bool)
    ensures forall e :: e in MovementErrors(config, store, now, mov, checkReference) <==>
                        Violated(e, config, store, now, mov, checkReference)
  {
    ErrorsUpToMembers(RuleCount, config, store, now, mov, checkReference);
  }

  /** validateMovement reports the broken rules in check order, each once. */
  lemma MovementErrorsInCheckOrder(config: StockConfig, store: StockStore, now: Date, mov: Movement,
                                   checkReference: bool)
    ensures InCheckOrder(MovementErrors(config, store, now, mov, checkReference))
  {
    ErrorsUpToOrdered(RuleCount, config, store, now, mov, checkReference);
  }

  // ---------------------------------------------------------------- the groups of rules

  lemma ConcatAssoc(a: seq<ValidationError>, b: seq<ValidationError>, c: seq<ValidationError>)
    ensures (a + b) + c == a + (b + c)
  {
  }

  /** The date group is rules 0 and 1. */
  lemma DateSection(config: StockConfig, store: StockStore, now: Date, mov: Movement, checkReference: bool)
    ensures ErrorsUpTo(2, config, store, now, mov, checkReference) == DateErrors(store, now, mov)
  {
    assert ErrorsUpTo(1, config, store, now, mov, checkReference) == When(mov.date > now, FutureDate);
  }

  /** The reference group is rules 2 and 3. */
  lemma ReferenceSection(config: StockConfig, store: StockStore, now: Date, mov: Movement, checkReference: bool)
    ensures ErrorsUpTo(4, config, store, now, mov, checkReference) ==
      ErrorsUpTo(2, config, store, now, mov, checkReference) + CheckedReferenceErrors(store, mov, checkReference)
  {
    var before := ErrorsUpTo(2, config, store, now, mov, checkReference);
    var missing := When(Violated(ReferenceMissing, config, store, now, mov, checkReference), ReferenceMissing);
    var used := When(Violated(ReferenceExists, config, store, now, mov, checkReference), ReferenceExists);
    assert ErrorsUpTo(4, config, store, now, mov, checkReference) == (before + missing) + used;
    assert CheckedReferenceErrors(store, mov, checkReference) == missing + used;
    ConcatAssoc(before, missing, used);
  }

  /** The type group is rules 4 to 6. */
  lemma TypeSection(config: StockConfig, store: StockStore, now: Date, mov: Movement, checkReference: bool)
    ensures ErrorsUpTo(7, config, store, now, mov, checkReference) ==
      ErrorsUpTo(4, config, store, now, mov, checkReference) + TypeErrors(mov)
  {
    var upTo4 := ErrorsUpTo(4, config, store, now, mov, checkReference);
    var upTo5 := ErrorsUpTo(5, config, store, now, mov, checkReference);
    var upTo6 := ErrorsUpTo(6, config, store, now, mov, checkReference);
    assert upTo5 == upTo4 + When(mov.movementType.None?, TypeMissing);
    assert upTo6 == upTo5 + When(IsCharge(mov) && mov.supplier.None?, SupplierMissing);
    assert ErrorsUpTo(7, config, store, now, mov, checkReference) ==
      upTo6 + When(mov.movementType.Some? && !IsCharge(mov) && mov.ward.None?, WardMissing);
  }

  /** The quantity and medical group is rules 7 and 8. */
  lemma MedicalSection(config: StockConfig, store: StockStore, now: Date, mov: Movement, checkReference: bool)
    ensures ErrorsUpTo(FirstLotFieldRule, config, store, now, mov, checkReference) ==
      ErrorsUpTo(7, config, store, now, mov, checkReference) + QuantityAndMedicalErrors(mov)
  {
    var upTo7 := ErrorsUpTo(7, config, store, now, mov, checkReference);
    assert ErrorsUpTo(8, config, store, now, mov, checkReference) == upTo7 + When(mov.quantity == 0, ZeroQuantity);
    ConcatAssoc(upTo7, When(mov.quantity == 0, ZeroQuantity), When(mov.medical.None?, MedicalMissing));
  }

  /** Rules 9 to 12 are the rules of validateLot, checked when the lot's dates are. */
  lemma {:induction false} LotGroupUpTo(k: nat, config: StockConfig, store: StockStore, now: Date,
                                        mov: Movement, checkReference: bool)
    requires FirstLotFieldRule <= k <= EndLotFieldRules
    ensures ErrorsUpTo(k, config, store, now, mov, checkReference) ==
      ErrorsUpTo(FirstLotFieldRule, config, store, now, mov, checkReference)
      + (if mov.lot.Some? && LotDatesChecked(config, mov)
         then LotFieldErrorsUpTo(k, mov.lot.value, LotCodeChecked(config, mov)) else [])
  {
    if k > FirstLotFieldRule {
      LotGroupUpTo(k - 1, config, store, now, mov, checkReference);
      var before := ErrorsUpTo(FirstLotFieldRule, config, store, now, mov, checkReference);
      var step := When(Violated(RuleAt(k - 1), config, store, now, mov, checkReference), RuleAt(k - 1));
      if mov.lot.Some? && LotDatesChecked(config, mov) {
        ConcatAssoc(before, LotFieldErrorsUpTo(k - 1, mov.lot.value, LotCodeChecked(config, mov)), step);
      }
    }
  }

  /** The rules after the lot fields, 13 to 16. */
  lemma LotTailSection(config: StockConfig, store: StockStore, now: Date, mov: Movement, checkReference: bool)
    ensures ErrorsUpTo(RuleCount, config, store, now, mov, checkReference) ==
      ErrorsUpTo(EndLotFieldRules, config, store, now, mov, checkReference)
      + When(Violated(LotOfAnotherMedical, config, store, now, mov, checkReference), LotOfAnotherMedical)
      + When(Violated(CostNotPositive, config, store, now, mov, checkReference), CostNotPositive)
      + When(Violated(QuantityExceedsLot, config, store, now, mov, checkReference), QuantityExceedsLot)
      + When(mov.lot.None?, LotMissing)
  {
    var upTo13 := ErrorsUpTo(13, config, store, now, mov, checkReference);
    assert ErrorsUpTo(14, config, store, now, mov, checkReference) ==
      upTo13 + When(Violated(LotOfAnotherMedical, config, store, now, mov, checkReference), LotOfAnotherMedical);
    assert ErrorsUpTo(15, config, store, now, mov, checkReference) ==
      ErrorsUpTo(14, config, store, now, mov, checkReference)
      + When(Violated(CostNotPositive, config, store, now, mov, checkReference), CostNotPositive);
    assert ErrorsUpTo(16, config, store, now, mov, checkReference) ==
      ErrorsUpTo(15, config, store, now, mov, checkReference)
      + When(Violated(QuantityExceedsLot, config, store, now, mov, checkReference), QuantityExceedsLot);
  }

  /** The lot group is rules 9 to 16. */
  lemma LotSection(config: StockConfig, store: StockStore, now: Date, mov: Movement, checkReference: bool)
    ensures ErrorsUpTo(RuleCount, config, store, now, mov, checkReference) ==
      ErrorsUpTo(FirstLotFieldRule, config, store, now, mov, checkReference) + LotErrors(config, store, mov)
  {
    LotGroupUpTo(EndLotFieldRules, config, store, now, mov, checkReference);
    LotTailSection(config, store, now, mov, checkReference);
    var upTo9 := ErrorsUpTo(FirstLotFieldRule, config, store, now, mov, checkReference);
    if mov.lot.Some? {
      var lot := mov.lot.value;
      var fields := LotFieldChecks(config, mov, lot);
      var ids := MedicalsFromLot(store, lot.code);
      var other := When(mov.medical.Some? && !(ids == [] || ids == [mov.medical.value.code]), LotOfAnotherMedical);
      var cost := When(IsCharge(mov) && config.lotWithCost && (lot.cost.None? || lot.cost.value <= 0.0),
                       CostNotPositive);
      var stock := When(!config.automaticLotOut && mov.movementType.Some? && !IsCharge(mov)
                        && mov.quantity > lot.mainStoreQuantity, QuantityExceedsLot);
      assert ErrorsUpTo(RuleCount, config, store, now, mov, checkReference) ==
        (((upTo9 + fields) + other) + cost) + stock + [];
      ConcatAssoc(upTo9, fields, (other + cost) + stock);
      ConcatAssoc(upTo9 + fields, other + cost, stock);
      ConcatAssoc(upTo9 + fields, other, cost);
    } else {
      assert ErrorsUpTo(RuleCount, config, store, now, mov, checkReference) ==
        upTo9 + [] + [] + [] + [] + [LotMissing];
    }
  }

  /** The error list validateMovement builds group by group is the list of
      broken rules, rule by rule. */
  lemma GroupedErrorsAreMovementErrors(config: StockConfig, store: StockStore, now: Date, mov: Movement,
                                       checkReference: bool)
    ensures GroupedErrors(config, store, now, mov, checkReference) ==
            MovementErrors(config, store, now, mov, checkReference)
  {
    DateSection(config, store, now, mov, checkReference);
    ReferenceSection(config, store, now, mov, checkReference);
    TypeSection(config, store, now, mov, checkReference);
    MedicalSection(config, store, now, mov, checkReference);
    LotSection(config, store, now, mov, checkReference);
  }
}
