# Medical stock movements: validation and batch insertion

This project is a Dafny model of the movement-inserting manager of a hospital
pharmacy's medical stock (`MovStockInsertingManager`). The manager:

- validates a stock movement, which is either a charge into the main store or
  a discharge to a ward, together with its lot and its reference number;
- inserts a batch of charging or discharging movements, stopping at the first
  movement that fails;
- updates a list of lots one after the other;
- tells whether taking a quantity of a medical would leave its stock below the
  medical's minimum.

Modules:

- `Wrappers`: `Option`, `Result`, and `Outcome` (pass, or fail with an error
  list).
- `StockTypes`: the entities the model uses:
  - medical, lot, movement type and movement;
  - the configuration switches (automatic lot-in, automatic lot-out, lots
    with cost);
  - the persistent state the validation reads, as a store value: the last
    movement date, the reference numbers in use, and the medicals recorded
    for each lot code;
  - the seventeen validation errors, in the order the checks run. Each tag
    stands for one message of the source's bundle.
- `ValidationRules`: the specification of the error list.
  - `MovementErrors`: one rule after the other. `Violated` says when a rule is
    broken.
  - `GroupedErrors`: the same list built group by group, the way the code
    builds it.
  - `GroupedErrorsAreMovementErrors` proves that the two definitions agree.
- `MovementValidation`: `validateMovement`, `validateLot` and
  `checkReferenceNumber`. They are written as imperative methods that append
  to the error list as the source does. Each method is proved equal to the
  specification.
- `ValidationProperties`: what the error list says, rule group by rule group.
  Each error is reported exactly when its condition holds.
- `MovementBatches`: the two single-movement preparations and the two batch
  insertions.
  - The batches are `while` loops over the movements, proved equal to
    recursive specification functions.
  - Persistence is a parameter record of functions from the store and a
    movement to a saved result or a failure with messages.
- `BatchProperties`:
  - a movement is validated before it is stored;
  - one movement per input, in input order;
  - the first failure rejects the batch;
  - the shared reference number is checked once, up front.
- `LotMaintenance`: the list form of `updateLot` and `alertCriticalQuantity`.

Where the code and the written description of the system differ, the model
follows the code:

- A batch given a shared reference number checks that number once. This code
  does not write the number into the movements; their own references are
  simply not checked.
- A movement without a type is treated as a non-charge for the lot checks,
  because the charge flag starts out false. Its lot is therefore fully
  checked, unless lots are selected automatically on discharge. The
  main-store quantity check is skipped for it, because that check also tests
  for the type.
- In the discharging batch, a failing movement without a medical is not
  described by a placeholder text. The code dereferences the missing medical
  there, so the batch ends with a null-pointer outcome, `NullPointer`,
  instead of a validation exception. Such a movement always fails validation,
  so every discharging batch that reaches one ends this way.

## Model

| member | source | states |
|---|---|---|
| MovementValidation.ValidateMovement | src/main/java/org/isf/medicalstock/manager/MovStockInsertingManager.java:70-200 | validation fails exactly when the specified error list is non-empty, and then fails with that whole list in check order. It does not stop at the first error. |
| MovementValidation.CheckDate | src/main/java/org/isf/medicalstock/manager/MovStockInsertingManager.java:73-82 | appends the future-date error and the before-last-movement error exactly as the date specification says |
| MovementValidation.CheckMovementType | src/main/java/org/isf/medicalstock/manager/MovStockInsertingManager.java:90-109 | returns whether the movement is a charge (its type code contains '+'), and appends the missing-type, missing-supplier or missing-ward error according to the type |
| MovementValidation.CheckQuantityAndMedical | src/main/java/org/isf/medicalstock/manager/MovStockInsertingManager.java:111-119 | appends the zero-quantity error and the missing-medical error exactly as specified |
| MovementValidation.CheckLotFields | src/main/java/org/isf/medicalstock/manager/MovStockInsertingManager.java:139-150 | runs the full lot check for a manually chosen lot. For an automatic lot-in charge, it checks the lot without its code. For an automatic lot-out discharge, it checks nothing. |
| MovementValidation.CheckLotUse | src/main/java/org/isf/medicalstock/manager/MovStockInsertingManager.java:152-191 | appends the lot-of-another-medical error, the cost error and the quantity-exceeds-lot error exactly as the lot-use specification says |
| MovementValidation.CheckLot | src/main/java/org/isf/medicalstock/manager/MovStockInsertingManager.java:139-195 | when a lot is present, runs the lot-field checks and then the lot-use checks; when it is absent, appends only the choose-a-lot error |
| MovementValidation.ValidateLot | src/main/java/org/isf/medicalstock/manager/MovStockInsertingManager.java:202-215 | appends exactly the lot-field errors of the lot: code of 50 or more UTF-16 code units, the unit Java counts for a string's length (only when the code is checked), missing preparation date, missing due date, preparation after due |
| StockTypes.Utf16Length | src/main/java/org/isf/medicalstock/manager/MovStockInsertingManager.java:203 | the length Java reports for the lot code: at least its number of characters and at most twice it |
| StockTypes.Utf16LengthInsideBmp | src/main/java/org/isf/medicalstock/manager/MovStockInsertingManager.java:203 | the Java length equals the number of characters exactly when no character lies outside the Basic Multilingual Plane |
| StockTypes.Utf16LengthOutsideBmp | src/main/java/org/isf/medicalstock/manager/MovStockInsertingManager.java:203 | a code made only of characters outside the Basic Multilingual Plane has twice as many code units as characters, so 25 such characters already reach the limit of 50 |
| MovementValidation.CheckReferenceNumber | src/main/java/org/isf/medicalstock/manager/MovStockInsertingManager.java:235-245 | returns at most one error: missing iff the reference is null or empty, already-exists iff it is in use, none otherwise |
| ValidationRules.ReferenceErrors | src/main/java/org/isf/medicalstock/manager/MovStockInsertingManager.java:235-245 | the reference errors have length at most one, and each of the three possible outcomes holds iff its condition does |
| ValidationRules.LotFieldErrorsAreBrokenRules | src/main/java/org/isf/medicalstock/manager/MovStockInsertingManager.java:202-215 | an error is in the lot-field errors iff the lot breaks that lot-field rule |
| ValidationRules.LotFieldErrorsUpToMembers | src/main/java/org/isf/medicalstock/manager/MovStockInsertingManager.java:202-215 | the lot-field errors of the first rules are exactly the broken rules among them |
| ValidationRules.LotFieldErrorsUpToOrdered | src/main/java/org/isf/medicalstock/manager/MovStockInsertingManager.java:202-215 | the lot-field errors come in check order, without repetition |
| ValidationRules.ErrorsUpToMembers | src/main/java/org/isf/medicalstock/manager/MovStockInsertingManager.java:70-200 | the errors of the first k rules are exactly the broken rules of rank below k |
| ValidationRules.ErrorsUpToOrdered | src/main/java/org/isf/medicalstock/manager/MovStockInsertingManager.java:70-200 | the errors of the first k rules are in strictly increasing check order |
| ValidationRules.MovementErrorsAreBrokenRules | src/main/java/org/isf/medicalstock/manager/MovStockInsertingManager.java:70-200 | an error is reported iff its rule is broken; nothing stops the accumulation |
| ValidationRules.MovementErrorsInCheckOrder | src/main/java/org/isf/medicalstock/manager/MovStockInsertingManager.java:70-200 | the errors are reported in the order the checks run, each at most once |
| ValidationRules.DateSection | src/main/java/org/isf/medicalstock/manager/MovStockInsertingManager.java:73-82 | the first two rules are the date checks |
| ValidationRules.ReferenceSection | src/main/java/org/isf/medicalstock/manager/MovStockInsertingManager.java:84-88 | the reference rules add the reference errors when, and only when, the reference is checked |
| ValidationRules.TypeSection | src/main/java/org/isf/medicalstock/manager/MovStockInsertingManager.java:90-109 | the type rules add the type errors |
| ValidationRules.MedicalSection | src/main/java/org/isf/medicalstock/manager/MovStockInsertingManager.java:111-119 | the quantity and medical rules add the quantity and medical errors |
| ValidationRules.LotGroupUpTo | src/main/java/org/isf/medicalstock/manager/MovStockInsertingManager.java:139-150 | the lot-field rules, checked only when a lot is present and its fields are checked, add the lot-field errors |
| ValidationRules.LotTailSection | src/main/java/org/isf/medicalstock/manager/MovStockInsertingManager.java:152-195 | the lot-use rules and the choose-a-lot rule close the list |
| ValidationRules.LotSection | src/main/java/org/isf/medicalstock/manager/MovStockInsertingManager.java:139-195 | the rules from the lot fields onward add the lot errors |
| ValidationRules.GroupedErrorsAreMovementErrors | src/main/java/org/isf/medicalstock/manager/MovStockInsertingManager.java:70-200 | building the list group by group, as the code does, gives the rule-by-rule list |
| ValidationProperties.FailsIffSomeRuleBroken | src/main/java/org/isf/medicalstock/manager/MovStockInsertingManager.java:197-199 | validation throws iff some rule is broken |
| ValidationProperties.DateRules | src/main/java/org/isf/medicalstock/manager/MovStockInsertingManager.java:74-82 | future date iff after now; before-last-movement iff a last date exists and the movement is strictly earlier; a movement at the last date itself is accepted |
| ValidationProperties.ReferenceRules | src/main/java/org/isf/medicalstock/manager/MovStockInsertingManager.java:84-88 | the reference errors appear only when checking is requested, each iff its condition holds, and never both |
| ValidationProperties.TypeRules | src/main/java/org/isf/medicalstock/manager/MovStockInsertingManager.java:91-109 | missing type iff no type, with no counterparty check then; missing supplier iff a charge without supplier; missing ward iff a typed non-charge without ward |
| ValidationProperties.QuantityAndMedicalRules | src/main/java/org/isf/medicalstock/manager/MovStockInsertingManager.java:111-119 | zero-quantity iff the quantity is 0; missing-medical iff no medical |
| ValidationProperties.MissingLotRule | src/main/java/org/isf/medicalstock/manager/MovStockInsertingManager.java:139-195 | choose-a-lot iff no lot, and then no other lot error |
| ValidationProperties.LotFieldErrorReported | src/main/java/org/isf/medicalstock/manager/MovStockInsertingManager.java:139-215 | a lot-field error is reported iff the lot's fields are checked in this mode and the lot breaks that rule |
| ValidationProperties.ManualLotRules | src/main/java/org/isf/medicalstock/manager/MovStockInsertingManager.java:142-215 | for a manually chosen lot: code too long iff it is 50 or more UTF-16 code units long (a character outside the Basic Multilingual Plane counts twice), each missing date iff absent, and preparation after due iff both dates are present and in the wrong order |
| ValidationProperties.AutomaticLotInRules | src/main/java/org/isf/medicalstock/manager/MovStockInsertingManager.java:147-215 | with automatic lot-in, a charge's lot code is never reported, and its dates are checked as for a manual lot |
| ValidationProperties.AutomaticLotOutRules | src/main/java/org/isf/medicalstock/manager/MovStockInsertingManager.java:136-150 | with automatic lot-out, a non-charge gets no lot-field error at all |
| ValidationProperties.LotOfAnotherMedicalRule | src/main/java/org/isf/medicalstock/manager/MovStockInsertingManager.java:156-160 | with a medical chosen, the lot-of-another-medical error is reported iff the lot code's recorded medicals are neither empty nor exactly this medical |
| ValidationProperties.CostRule | src/main/java/org/isf/medicalstock/manager/MovStockInsertingManager.java:172-177 | the cost error is reported iff there is a lot, the movement is a charge, lots have costs, and the cost is missing or not positive |
| ValidationProperties.StockRule | src/main/java/org/isf/medicalstock/manager/MovStockInsertingManager.java:186-191 | the quantity-exceeds-lot error is reported iff there is a lot, lot-out is manual, the movement is a typed non-charge, and its quantity exceeds the lot's main-store quantity |
| MovementBatches.PrepareChargingMovement | src/main/java/org/isf/medicalstock/manager/MovStockInsertingManager.java:362-365 | validates first. An invalid movement fails with its validation errors; a valid one is prepared by the store. |
| MovementBatches.PrepareDischargingMovement | src/main/java/org/isf/medicalstock/manager/MovStockInsertingManager.java:458-467 | validates first. A valid movement is split over lots when lot-out is automatic; otherwise it is prepared as a one-element list. |
| MovementBatches.NewMultipleChargingMovements | src/main/java/org/isf/medicalstock/manager/MovStockInsertingManager.java:327-351 | the loop computes the charging batch specification: the shared reference first, then each movement against the store the earlier ones left |
| MovementBatches.NewMultipleDischargingMovements | src/main/java/org/isf/medicalstock/manager/MovStockInsertingManager.java:415-436 | the loop computes the discharging batch specification, including the null-pointer end for a failing movement without a medical |
| MovementBatches.ChargeEachMovement | src/main/java/org/isf/medicalstock/manager/MovStockInsertingManager.java:338-350 | the charging loop prepares each movement against the store the earlier ones left, and its result is the recursive charging specification |
| MovementBatches.DischargeEachMovement | src/main/java/org/isf/medicalstock/manager/MovStockInsertingManager.java:425-435 | the discharging loop, likewise, including the null-pointer end |
| BatchProperties.ChargeValidatedBeforeStored | src/main/java/org/isf/medicalstock/manager/MovStockInsertingManager.java:362-365 | an invalid charge is rejected with exactly its validation errors; a prepared charge is valid and is what the store returned; every rule message comes from validation |
| BatchProperties.DischargeValidatedBeforeStored | src/main/java/org/isf/medicalstock/manager/MovStockInsertingManager.java:458-467 | the same for a discharge, with the automatic split or the single manual preparation |
| BatchProperties.NoMedicalNeverPrepared | src/main/java/org/isf/medicalstock/manager/MovStockInsertingManager.java:362-365 | a movement without a medical is never prepared, as a charge or as a discharge |
| BatchProperties.ChargeAllAppend | src/main/java/org/isf/medicalstock/manager/MovStockInsertingManager.java:338-350 | charging a concatenation is charging the first part and then, if it succeeded, the rest against the store it left |
| BatchProperties.ChargeAllLength | src/main/java/org/isf/medicalstock/manager/MovStockInsertingManager.java:338-350 | a successful charging batch returns exactly one movement per input |
| BatchProperties.ChargeAllNeverNullPointer | src/main/java/org/isf/medicalstock/manager/MovStockInsertingManager.java:344-346 | the charging batch never ends in a null dereference, whatever its movements |
| BatchProperties.ChargedInInputOrder | src/main/java/org/isf/medicalstock/manager/MovStockInsertingManager.java:338-350 | the k-th returned movement is the preparation of the k-th input, against the store after the first k |
| BatchProperties.ChargeAllStopsAtFailure | src/main/java/org/isf/medicalstock/manager/MovStockInsertingManager.java:342-347 | once the first k movements succeed, a failing k-th one rejects the batch with its messages plus its description |
| BatchProperties.ChargeAllFailsSomewhere | src/main/java/org/isf/medicalstock/manager/MovStockInsertingManager.java:338-350 | a charging batch that does not succeed has a first failing movement |
| BatchProperties.ChargeAllRejectedAtFirstFailure | src/main/java/org/isf/medicalstock/manager/MovStockInsertingManager.java:338-350 | a charging batch that does not succeed is rejected with the messages of its first failing movement |
| BatchProperties.DischargeAllAppend | src/main/java/org/isf/medicalstock/manager/MovStockInsertingManager.java:425-435 | discharging a concatenation is discharging the first part and then, if it succeeded, the rest |
| BatchProperties.ManualDischargeLength | src/main/java/org/isf/medicalstock/manager/MovStockInsertingManager.java:425-465 | with manual lot-out, a successful discharging batch returns exactly one movement per input |
| BatchProperties.DischargeAllStopsAtFailure | src/main/java/org/isf/medicalstock/manager/MovStockInsertingManager.java:429-433 | once the first k movements succeed, a failing k-th one ends the batch: rejected with its messages plus its medical's description, or the null dereference when it has no medical |
| BatchProperties.DischargeReachingNoMedical | src/main/java/org/isf/medicalstock/manager/MovStockInsertingManager.java:431 | a discharging batch that reaches a movement without a medical ends in the null dereference |
| BatchProperties.DischargeAllFailsSomewhere | src/main/java/org/isf/medicalstock/manager/MovStockInsertingManager.java:425-435 | a discharging batch that does not succeed has a first failing movement |
| BatchProperties.DischargeAllEndedAtFirstFailure | src/main/java/org/isf/medicalstock/manager/MovStockInsertingManager.java:425-435 | a discharging batch that does not succeed ended at its first failing movement |
| BatchProperties.SharedReferenceCheckedUpFront | src/main/java/org/isf/medicalstock/manager/MovStockInsertingManager.java:330-424 | a blank shared reference rejects either batch with just the missing-reference error; one already in use rejects it with just the already-exists error |
| BatchProperties.SharedReferenceNotRechecked | src/main/java/org/isf/medicalstock/manager/MovStockInsertingManager.java:330-428 | with an acceptable shared reference, each batch runs its movements with the reference check off |
| BatchProperties.NoReferenceRuleWhenUnchecked | src/main/java/org/isf/medicalstock/manager/MovStockInsertingManager.java:84-88 | validation without the reference check never reports a reference error |
| BatchProperties.OwnReferenceChecked | src/main/java/org/isf/medicalstock/manager/MovStockInsertingManager.java:330-341 | without a shared reference, a movement reached by the charging batch rejects it with the missing-reference error when its own reference is blank, and with the already-exists error when the store already uses that reference |
| BatchProperties.OwnReferenceCheckedOnDischarge | src/main/java/org/isf/medicalstock/manager/MovStockInsertingManager.java:417-434 | the same for the discharging batch, for a movement that has a medical |
| BatchProperties.ChargeReachingNoMedical | src/main/java/org/isf/medicalstock/manager/MovStockInsertingManager.java:342-347 | a charging batch that reaches a movement without a medical is rejected with its validation messages, which include the missing-medical error, followed by the no-description placeholder |
| LotMaintenance.UpdateLots | src/main/java/org/isf/medicalstock/manager/MovStockInsertingManager.java:386-393 | the loop computes the specification of updating the lots one after the other |
| LotMaintenance.UpdatedLotsLength | src/main/java/org/isf/medicalstock/manager/MovStockInsertingManager.java:386-393 | a successful update returns exactly one lot per input |
| LotMaintenance.UpdatedLotsAppend | src/main/java/org/isf/medicalstock/manager/MovStockInsertingManager.java:386-393 | updating a concatenation is updating the first part and then the rest against the store it left |
| LotMaintenance.UpdatedInInputOrder | src/main/java/org/isf/medicalstock/manager/MovStockInsertingManager.java:386-393 | the k-th returned lot is what the update of the k-th input returned |
| LotMaintenance.UpdatedLotsFailure | src/main/java/org/isf/medicalstock/manager/MovStockInsertingManager.java:386-393 | a failed update fails with the messages of its first failing lot |
| LotMaintenance.AlertCriticalQuantity | src/main/java/org/isf/medicalstock/manager/MovStockInsertingManager.java:290-295 | the medical is looked up again by code. There is no result iff the code is unknown; otherwise the alert is true iff the quantity taken exceeds the stored total minus the stored minimum. |

## Left out

- Null movement dates and null type codes: in the source these throw a
  null-pointer exception inside validation. Here a date and a type code are
  always present.
- Null lot codes: a lot's code is always present here. In the source a null
  code throws inside validation only when the code's length is checked (a
  manually chosen lot). For an automatic lot-in charge, or an automatic
  lot-out discharge, the null code is passed to the medical-per-lot lookup
  of the persistence layer, whose behaviour on it is not part of this model.
- Persistence: saving, preparing and splitting movements, updating lots, the
  last movement date, reference lookups and medical-per-lot lookups. These
  are parameters (`StockIo`, `LotIo`) or fields of the store value. Their
  own behaviour belongs to the persistence layer, which is not part of this
  model. The three lookups validation makes (the last movement date, whether
  a reference number exists, the medicals of a lot code) are assumed never
  to fail. In the source a failure there raises an exception that the batch
  loop would decorate with the movement's description and rethrow.
- The automatic first-in-first-out split of a discharge over lots: it is an
  oracle in `StockIo.automaticDischarging`, so the model says nothing about
  how the quantity is divided.
- `getLotByMedical`, `storeLot`, `deleteLot`, `getLot`, `lotExists`,
  `getLastMovementDate` and `refNoExists`: one-line delegations to
  persistence. They are not modelled as operations; the ones validation needs
  are store fields.
- Transactions: a rejected batch returns no store, so an all-or-nothing
  rollback is assumed. The rollback itself is not modelled.
- UpdateLots: the list update runs inside a transaction without a rollback
  rule. The model returns only the failure and says nothing of the store left
  by the lots updated before it.
- Messages: each translated message becomes an error tag or a `Storage` text.
  The message bundle and its wording are not modelled.
- The clock: the current time is a parameter, and one batch uses a single
  `now` for all of its movements. The source reads the clock again for each
  movement.
- Global settings: the automatic lot-in, automatic lot-out and lot-with-cost
  switches are fields of a configuration record.
- Cost: a lot's cost is an exact real. The rounding of a decimal cost to a
  double before it is compared with 0.0 is not modelled.
- AlertCriticalQuantity: the totals are compared as integers. The source
  compares doubles, which agree with exact integers only within double
  precision. A medical the lookup does not find is the source's null
  dereference, modelled as the `None` result.
- Dates are integers (instants on one clock); time zones and calendar
  arithmetic are not modelled.
- validateMovement's checks are split into one method per group of checks,
  so that each proof stays small. The order of the checks and their
  conditions are those of the source, apart from the null cases above.
