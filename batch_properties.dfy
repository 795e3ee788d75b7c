/** What the two batch operations promise: validation before storage, one
    prepared movement per input in input order, the first failure rejecting the
    whole batch, and the shared reference number checked once. */
module BatchProperties {
  import opened Wrappers
  import opened StockTypes
  import opened ValidationRules
  import opened MovementBatches

  // ---------------------------------------------------------------- one movement

  /** A charge reaches the store only when it is valid; an invalid one is
      rejected with exactly its broken rules. */
  lemma ChargeValidatedBeforeStored(config: StockConfig, io: StockIo, store: StockStore, now: Date,
                                    mov: Movement, checkReference: bool)
    ensures var errors := MovementErrors(config, store, now, mov, checkReference);
      var prepared := PreparedCharge(config, io, store, now, mov, checkReference);
      && (errors != [] ==> prepared == Failure(AsMessages(errors)))
      && (prepared.Success? ==>
            errors == [] && io.prepareCharging(store, mov).Success?
            && prepared.value == io.prepareCharging(store, mov).value)
      && (forall e :: Rule(e) in (if prepared.Failure? then prepared.error else []) ==> e in errors)
  {
    var errors := MovementErrors(config, store, now, mov, checkReference);
    var prepared := PreparedCharge(config, io, store, now, mov, checkReference);
    if errors != [] {
      forall e | Rule(e) in prepared.error ensures e in errors {
        var i :| 0 <= i < |prepared.error| && prepared.error[i] == Rule(e);
        assert prepared.error[i] == Rule(errors[i]);
      }
    }
  }

  /** A discharge reaches the store only when it is valid: split over the lots
      when lots are selected automatically, otherwise prepared as one movement. */
  lemma DischargeValidatedBeforeStored(config: StockConfig, io: StockIo, store: StockStore, now: Date,
                                       mov: Movement, checkReference: bool)
    ensures var errors := MovementErrors(config, store, now, mov, checkReference);
      var prepared := PreparedDischarge(config, io, store, now, mov, checkReference);
      && (errors != [] ==> prepared == Failure(AsMessages(errors)))
      && (prepared.Success? && config.automaticLotOut ==>
            errors == [] && io.automaticDischarging(store, mov).Success?
            && prepared.value == io.automaticDischarging(store, mov).value)
      && (prepared.Success? && !config.automaticLotOut ==>
            errors == [] && io.prepareDischarging(store, mov).Success?
            && prepared.value.store == io.prepareDischarging(store, mov).value.store
            && prepared.value.value == [io.prepareDischarging(store, mov).value.value])
      && (forall e :: Rule(e) in (if prepared.Failure? then prepared.error else []) ==> e in errors)
  {
    var errors := MovementErrors(config, store, now, mov, checkReference);
    var prepared := PreparedDischarge(config, io, store, now, mov, checkReference);
    if errors != [] {
      forall e | Rule(e) in prepared.error ensures e in errors {
        var i :| 0 <= i < |prepared.error| && prepared.error[i] == Rule(e);
        assert prepared.error[i] == Rule(errors[i]);
      }
    }
  }

  /** A movement without a medical is never prepared. */
  lemma NoMedicalNeverPrepared(config: StockConfig, io: StockIo, store: StockStore, now: Date,
                               mov: Movement, checkReference: bool)
    requires mov.medical.None?
    ensures PreparedCharge(config, io, store, now, mov, checkReference).Failure?
    ensures PreparedDischarge(config, io, store, now, mov, checkReference).Failure?
  {
    MovementErrorsAreBrokenRules(config, store, now, mov, checkReference);
    assert MedicalMissing in MovementErrors(config, store, now, mov, checkReference);
  }

  // ---------------------------------------------------------------- the charging batch

  /** The charging batch on `first + rest` is the batch on `first`, then, if it
      succeeded, the batch on `rest` against the store it left. */
  lemma {:induction false} ChargeAllAppend(config: StockConfig, io: StockIo, store: StockStore, now: Date,
                                           first: seq<Movement>, rest: seq<Movement>, checkReference: bool)
    ensures var before := ChargeAll(config, io, store, now, first, checkReference);
      ChargeAll(config, io, store, now, first + rest, checkReference) ==
      if before.Inserted? then Prepend(before.movements, ChargeAll(config, io, before.store, now, rest, checkReference))
      else before
    decreases |first|
  {
    if first == [] {
      assert first + rest == rest;
    } else {
      assert (first + rest)[0] == first[0];
      assert (first + rest)[1..] == first[1..] + rest;
      var prepared := PreparedCharge(config, io, store, now, first[0], checkReference);
      if prepared.Success? {
        ChargeAllAppend(config, io, prepared.value.store, now, first[1..], rest, checkReference);
        var tail := ChargeAll(config, io, prepared.value.store, now, first[1..], checkReference);
        if tail.Inserted? {
          PrependPrepend([prepared.value.value], tail.movements,
                         ChargeAll(config, io, tail.store, now, rest, checkReference));
        }
      }
    }
  }

  /** A successful charging batch prepares exactly one movement per input. */
  lemma {:induction false} ChargeAllLength(config: StockConfig, io: StockIo, store: StockStore, now: Date,
                                           movements: seq<Movement>, checkReference: bool)
    ensures var r := ChargeAll(config, io, store, now, movements, checkReference);
      r.Inserted? ==> |r.movements| == |movements|
    decreases |movements|
  {
    if movements != [] {
      var prepared := PreparedCharge(config, io, store, now, movements[0], checkReference);
      if prepared.Success? {
        ChargeAllLength(config, io, prepared.value.store, now, movements[1..], checkReference);
      }
    }
  }

  /** The charging batch never dereferences a missing medical. */
  lemma {:induction false} ChargeAllNeverNullPointer(config: StockConfig, io: StockIo, store: StockStore,
                                                     now: Date, movements: seq<Movement>, checkReference: bool)
    ensures ChargeAll(config, io, store, now, movements, checkReference) != NullPointer
    decreases |movements|
  {
    if movements != [] {
      var prepared := PreparedCharge(config, io, store, now, movements[0], checkReference);
      if prepared.Success? {
        ChargeAllNeverNullPointer(config, io, prepared.value.store, now, movements[1..], checkReference);
      }
    }
  }

  /** The `k`-th movement a successful charging batch returns is the `k`-th
      input, prepared against the store the first `k` inputs left. */
  lemma ChargedInInputOrder(config: StockConfig, io: StockIo, store: StockStore, now: Date,
                            movements: seq<Movement>, checkReference: bool, k: nat)
    requires k < |movements|
    requires ChargeAll(config, io, store, now, movements, checkReference).Inserted?
    ensures var before := ChargeAll(config, io, store, now, movements[..k], checkReference);
      && before.Inserted?
      && var prepared := PreparedCharge(config, io, before.store, now, movements[k], checkReference);
      && prepared.Success?
      && |ChargeAll(config, io, store, now, movements, checkReference).movements| == |movements|
      && ChargeAll(config, io, store, now, movements, checkReference).movements[k] == prepared.value.value
  {
    assert movements == movements[..k] + movements[k..];
    ChargeAllAppend(config, io, store, now, movements[..k], movements[k..], checkReference);
    ChargeAllLength(config, io, store, now, movements[..k], checkReference);
    ChargeAllLength(config, io, store, now, movements, checkReference);
    var before := ChargeAll(config, io, store, now, movements[..k], checkReference);
    assert movements[k..][0] == movements[k];
    assert movements[k..][1..] == movements[k + 1..];
  }

  /** The charging batch prepared its first `k` movements and fails on the next. */
  predicate ChargeFailsAt(config: StockConfig, io: StockIo, store: StockStore, now: Date,
                          movements: seq<Movement>, checkReference: bool, k: nat)
  {
    && k < |movements|
    && var before := ChargeAll(config, io, store, now, movements[..k], checkReference);
    && before.Inserted?
    && PreparedCharge(config, io, before.store, now, movements[k], checkReference).Failure?
  }

  /** The messages a charging batch that fails on its `k`-th movement reports. */
  function ChargeFailureMessages(config: StockConfig, io: StockIo, store: StockStore, now: Date,
                                 movements: seq<Movement>, checkReference: bool, k: nat): seq<Message>
    requires ChargeFailsAt(config, io, store, now, movements, checkReference, k)
  {
    var before := ChargeAll(config, io, store, now, movements[..k], checkReference);
    PreparedCharge(config, io, before.store, now, movements[k], checkReference).error
    + [ChargeDescription(movements[k])]
  }

  /** Once the first `k` movements were prepared, a failing `k`-th movement
      rejects the batch with its messages and its medical's description, or the
      placeholder when it has none. */
  lemma ChargeAllStopsAtFailure(config: StockConfig, io: StockIo, store: StockStore, now: Date,
                                movements: seq<Movement>, checkReference: bool, k: nat)
    requires ChargeFailsAt(config, io, store, now, movements, checkReference, k)
    ensures ChargeAll(config, io, store, now, movements, checkReference) ==
            Rejected(ChargeFailureMessages(config, io, store, now, movements, checkReference, k))
  {
    assert movements == movements[..k] + movements[k..];
    ChargeAllAppend(config, io, store, now, movements[..k], movements[k..], checkReference);
    assert movements[k..][0] == movements[k];
  }

  /** The charging batch fails on some movement when it does not succeed. */
  lemma {:induction false} ChargeAllFailsSomewhere(config: StockConfig, io: StockIo, store: StockStore,
                                                   now: Date, movements: seq<Movement>, checkReference: bool)
    returns (k: nat)
    requires !ChargeAll(config, io, store, now, movements, checkReference).Inserted?
    ensures ChargeFailsAt(config, io, store, now, movements, checkReference, k)
    decreases |movements|
  {
    assert movements[..0] == [];
    var prepared := PreparedCharge(config, io, store, now, movements[0], checkReference);
    if prepared.Failure? {
      k := 0;
    } else {
      var rest := movements[1..];
      var next := prepared.value.store;
      var j := ChargeAllFailsSomewhere(config, io, next, now, rest, checkReference);
      k := j + 1;
      assert movements[..k][0] == movements[0];
      assert movements[..k][1..] == rest[..j];
      assert movements[k] == rest[j];
    }
  }

  /** A charging batch that does not succeed was rejected by its first failing movement. */
  lemma ChargeAllRejectedAtFirstFailure(config: StockConfig, io: StockIo, store: StockStore,
                                        now: Date, movements: seq<Movement>, checkReference: bool)
    requires !ChargeAll(config, io, store, now, movements, checkReference).Inserted?
    ensures exists k ::
      && ChargeFailsAt(config, io, store, now, movements, checkReference, k)
      && ChargeAll(config, io, store, now, movements, checkReference) ==
         Rejected(ChargeFailureMessages(config, io, store, now, movements, checkReference, k))
  {
    var k := ChargeAllFailsSomewhere(config, io, store, now, movements, checkReference);
    ChargeAllStopsAtFailure(config, io, store, now, movements, checkReference, k);
  }

  /** A charging batch that reaches a movement without a medical is rejected
      with that movement's validation messages followed by the no-description
      placeholder, where the discharging batch dereferences the missing medical. */
  lemma ChargeReachingNoMedical(config: StockConfig, io: StockIo, store: StockStore, now: Date,
                                movements: seq<Movement>, checkReference: bool, k: nat)
    requires k < |movements| && movements[k].medical.None?
    requires ChargeAll(config, io, store, now, movements[..k], checkReference).Inserted?
    ensures var before := ChargeAll(config, io, store, now, movements[..k], checkReference);
      var errors := MovementErrors(config, before.store, now, movements[k], checkReference);
      && MedicalMissing in errors
      && ChargeAll(config, io, store, now, movements, checkReference) ==
         Rejected(AsMessages(errors) + [NoDescription])
  {
    var before := ChargeAll(config, io, store, now, movements[..k], checkReference);
    MovementErrorsAreBrokenRules(config, before.store, now, movements[k], checkReference);
    assert Violated(MedicalMissing, config, before.store, now, movements[k], checkReference);
    assert MedicalMissing in MovementErrors(config, before.store, now, movements[k], checkReference);
    ChargeValidatedBeforeStored(config, io, before.store, now, movements[k], checkReference);
    ChargeAllStopsAtFailure(config, io, store, now, movements, checkReference, k);
  }

  // ---------------------------------------------------------------- the discharging batch

  /** The discharging batch on `first + rest` is the batch on `first`, then, if
      it succeeded, the batch on `rest` against the store it left. */
  lemma {:induction false} DischargeAllAppend(config: StockConfig, io: StockIo, store: StockStore, now: Date,
                                              first: seq<Movement>, rest: seq<Movement>, checkReference: bool)
    ensures var before := DischargeAll(config, io, store, now, first, checkReference);
      DischargeAll(config, io, store, now, first + rest, checkReference) ==
      if before.Inserted? then Prepend(before.movements, DischargeAll(config, io, before.store, now, rest, checkReference))
      else before
    decreases |first|
  {
    if first == [] {
      assert first + rest == rest;
    } else {
      assert (first + rest)[0] == first[0];
      assert (first + rest)[1..] == first[1..] + rest;
      var prepared := PreparedDischarge(config, io, store, now, first[0], checkReference);
      if prepared.Success? {
        DischargeAllAppend(config, io, prepared.value.store, now, first[1..], rest, checkReference);
        var tail := DischargeAll(config, io, prepared.value.store, now, first[1..], checkReference);
        if tail.Inserted? {
          PrependPrepend(prepared.value.value, tail.movements,
                         DischargeAll(config, io, tail.store, now, rest, checkReference));
        }
      }
    }
  }

  /** Without automatic lot-out, a successful discharging batch prepares exactly
      one movement per input. */
  lemma {:induction false} ManualDischargeLength(config: StockConfig, io: StockIo, store: StockStore, now: Date,
                                                 movements: seq<Movement>, checkReference: bool)
    requires !config.automaticLotOut
    ensures var r := DischargeAll(config, io, store, now, movements, checkReference);
      r.Inserted? ==> |r.movements| == |movements|
    decreases |movements|
  {
    if movements != [] {
      var prepared := PreparedDischarge(config, io, store, now, movements[0], checkReference);
      if prepared.Success? {
        ManualDischargeLength(config, io, prepared.value.store, now, movements[1..], checkReference);
      }
    }
  }

  /** The discharging batch prepared its first `k` movements and fails on the next. */
  predicate DischargeFailsAt(config: StockConfig, io: StockIo, store: StockStore, now: Date,
                             movements: seq<Movement>, checkReference: bool, k: nat)
  {
    && k < |movements|
    && var before := DischargeAll(config, io, store, now, movements[..k], checkReference);
    && before.Inserted?
    && PreparedDischarge(config, io, before.store, now, movements[k], checkReference).Failure?
  }

  /** How a discharging batch that fails on its `k`-th movement ends: rejected
      with that movement's messages and its medical's description, or the null
      dereference when it has no medical. */
  function DischargeFailure(config: StockConfig, io: StockIo, store: StockStore, now: Date,
                            movements: seq<Movement>, checkReference: bool, k: nat): BatchResult
    requires DischargeFailsAt(config, io, store, now, movements, checkReference, k)
  {
    var before := DischargeAll(config, io, store, now, movements[..k], checkReference);
    if movements[k].medical.None? then NullPointer
    else Rejected(PreparedDischarge(config, io, before.store, now, movements[k], checkReference).error
                  + [Description(movements[k].medical.value.description)])
  }

  /** Once the first `k` movements were prepared, a failing `k`-th movement ends the batch. */
  lemma DischargeAllStopsAtFailure(config: StockConfig, io: StockIo, store: StockStore, now: Date,
                                   movements: seq<Movement>, checkReference: bool, k: nat)
    requires DischargeFailsAt(config, io, store, now, movements, checkReference, k)
    ensures DischargeAll(config, io, store, now, movements, checkReference) ==
            DischargeFailure(config, io, store, now, movements, checkReference, k)
  {
    assert movements == movements[..k] + movements[k..];
    DischargeAllAppend(config, io, store, now, movements[..k], movements[k..], checkReference);
    assert movements[k..][0] == movements[k];
  }

  /** A discharging batch that reaches a movement without a medical ends in the
      null dereference. */
  lemma DischargeReachingNoMedical(config: StockConfig, io: StockIo, store: StockStore, now: Date,
                                   movements: seq<Movement>, checkReference: bool, k: nat)
    requires k < |movements| && movements[k].medical.None?
    requires DischargeAll(config, io, store, now, movements[..k], checkReference).Inserted?
    ensures DischargeAll(config, io, store, now, movements, checkReference) == NullPointer
  {
    var before := DischargeAll(config, io, store, now, movements[..k], checkReference);
    NoMedicalNeverPrepared(config, io, before.store, now, movements[k], checkReference);
    DischargeAllStopsAtFailure(config, io, store, now, movements, checkReference, k);
  }

  /** The discharging batch fails on some movement when it does not succeed. */
  lemma {:induction false} DischargeAllFailsSomewhere(config: StockConfig, io: StockIo, store: StockStore,
                                                      now: Date, movements: seq<Movement>, checkReference: bool)
    returns (k: nat)
    requires !DischargeAll(config, io, store, now, movements, checkReference).Inserted?
    ensures DischargeFailsAt(config, io, store, now, movements, checkReference, k)
    decreases |movements|
  {
    assert movements[..0] == [];
    var prepared := PreparedDischarge(config, io, store, now, movements[0], checkReference);
    if prepared.Failure? {
      k := 0;
    } else {
      var rest := movements[1..];
      var next := prepared.value.store;
      var j := DischargeAllFailsSomewhere(config, io, next, now, rest, checkReference);
      k := j + 1;
      assert movements[..k][0] == movements[0];
      assert movements[..k][1..] == rest[..j];
      assert movements[k] == rest[j];
    }
  }

  /** A discharging batch that does not succeed ended at its first failing movement. */
  lemma DischargeAllEndedAtFirstFailure(config: StockConfig, io: StockIo, store: StockStore,
                                        now: Date, movements: seq<Movement>, checkReference: bool)
    requires !DischargeAll(config, io, store, now, movements, checkReference).Inserted?
    ensures exists k ::
      && DischargeFailsAt(config, io, store, now, movements, checkReference, k)
      && DischargeAll(config, io, store, now, movements, checkReference) ==
         DischargeFailure(config, io, store, now, movements, checkReference, k)
  {
    var k := DischargeAllFailsSomewhere(config, io, store, now, movements, checkReference);
    DischargeAllStopsAtFailure(config, io, store, now, movements, checkReference, k);
  }

  // ---------------------------------------------------------------- the shared reference number

  /** A shared reference that is blank, or that the store already uses, rejects
      either batch before any movement is looked at. */
  lemma SharedReferenceCheckedUpFront(config: StockConfig, io: StockIo, store: StockStore, now: Date,
                                      movements: seq<Movement>, reference: string)
    ensures reference == [] ==>
      && MultipleCharging(config, io, store, now, movements, Some(reference)) == Rejected([Rule(ReferenceMissing)])
      && MultipleDischarging(config, io, store, now, movements, Some(reference)) == Rejected([Rule(ReferenceMissing)])
    ensures reference != [] && reference in store.referenceNumbers ==>
      && MultipleCharging(config, io, store, now, movements, Some(reference)) == Rejected([Rule(ReferenceExists)])
      && MultipleDischarging(config, io, store, now, movements, Some(reference)) == Rejected([Rule(ReferenceExists)])
  {
    var errors := ReferenceErrors(store, Some(reference));
    if errors != [] {
      assert |AsMessages(errors)| == 1 && AsMessages(errors)[0] == Rule(errors[0]);
    }
  }

  /** With an acceptable shared reference, the movements' own references are not
      checked: a rejected batch names no reference error. */
  lemma SharedReferenceNotRechecked(config: StockConfig, io: StockIo, store: StockStore, now: Date,
                                    movements: seq<Movement>, reference: string)
    requires ReferenceErrors(store, Some(reference)) == []
    ensures var r := MultipleCharging(config, io, store, now, movements, Some(reference));
      r.Rejected? ==> Rule(ReferenceMissing) !in r.messages && Rule(ReferenceExists) !in r.messages
    ensures var r := MultipleDischarging(config, io, store, now, movements, Some(reference));
      r.Rejected? ==> Rule(ReferenceMissing) !in r.messages && Rule(ReferenceExists) !in r.messages
  {
    var charged := ChargeAll(config, io, store, now, movements, false);
    if charged.Rejected? {
      var k := ChargeAllFailsSomewhere(config, io, store, now, movements, false);
      ChargeAllStopsAtFailure(config, io, store, now, movements, false, k);
      var before := ChargeAll(config, io, store, now, movements[..k], false);
      NoReferenceRuleWhenUnchecked(config, before.store, now, movements[k]);
      ChargeValidatedBeforeStored(config, io, before.store, now, movements[k], false);
    }
    var discharged := DischargeAll(config, io, store, now, movements, false);
    if discharged.Rejected? {
      var k := DischargeAllFailsSomewhere(config, io, store, now, movements, false);
      DischargeAllStopsAtFailure(config, io, store, now, movements, false, k);
      var before := DischargeAll(config, io, store, now, movements[..k], false);
      NoReferenceRuleWhenUnchecked(config, before.store, now, movements[k]);
      DischargeValidatedBeforeStored(config, io, before.store, now, movements[k], false);
    }
  }

  /** Validation without the reference check reports no reference error. */
  lemma NoReferenceRuleWhenUnchecked(config: StockConfig, store: StockStore, now: Date, mov: Movement)
    ensures ReferenceMissing !in MovementErrors(config, store, now, mov, false)
    ensures ReferenceExists !in MovementErrors(config, store, now, mov, false)
  {
    MovementErrorsAreBrokenRules(config, store, now, mov, false);
  }

  /** A broken rule is among the messages that report a list of broken rules,
      whatever follows them. */
  lemma RuleReported(errors: seq<ValidationError>, extra: seq<Message>, e: ValidationError)
    requires e in errors
    ensures Rule(e) in AsMessages(errors) + extra
  {
    var i :| 0 <= i < |errors| && errors[i] == e;
    assert (AsMessages(errors) + extra)[i] == Rule(e);
  }

  /** Without a shared reference, each movement's own reference is checked: a
      movement reached by the charging batch with a blank reference rejects it
      with the missing-reference error, and one with a reference the store
      already uses rejects it with the already-exists error. */
  lemma OwnReferenceChecked(config: StockConfig, io: StockIo, store: StockStore, now: Date,
                            movements: seq<Movement>, k: nat)
    requires k < |movements|
    requires ChargeAll(config, io, store, now, movements[..k], true).Inserted?
    ensures var before := ChargeAll(config, io, store, now, movements[..k], true);
      var reference := movements[k].referenceNumber;
      var r := MultipleCharging(config, io, store, now, movements, None);
      && (BlankReference(reference) ==> r.Rejected? && Rule(ReferenceMissing) in r.messages)
      && (!BlankReference(reference) && reference.value in before.store.referenceNumbers ==>
            r.Rejected? && Rule(ReferenceExists) in r.messages)
  {
    var before := ChargeAll(config, io, store, now, movements[..k], true);
    var mov := movements[k];
    var errors := MovementErrors(config, before.store, now, mov, true);
    MovementErrorsAreBrokenRules(config, before.store, now, mov, true);
    if BlankReference(mov.referenceNumber) || mov.referenceNumber.value in before.store.referenceNumbers {
      var e := if BlankReference(mov.referenceNumber) then ReferenceMissing else ReferenceExists;
      assert e in errors;
      ChargeValidatedBeforeStored(config, io, before.store, now, mov, true);
      ChargeAllStopsAtFailure(config, io, store, now, movements, true, k);
      RuleReported(errors, [ChargeDescription(mov)], e);
    }
  }

  /** The same for the discharging batch, for a movement that has a medical (one
      without ends the batch in the null dereference, see DischargeReachingNoMedical). */
  lemma OwnReferenceCheckedOnDischarge(config: StockConfig, io: StockIo, store: StockStore, now: Date,
                                       movements: seq<Movement>, k: nat)
    requires k < |movements|
    requires DischargeAll(config, io, store, now, movements[..k], true).Inserted?
    ensures var before := DischargeAll(config, io, store, now, movements[..k], true);
      var reference := movements[k].referenceNumber;
      var r := MultipleDischarging(config, io, store, now, movements, None);
      && (movements[k].medical.Some? && BlankReference(reference) ==>
            r.Rejected? && Rule(ReferenceMissing) in r.messages)
      && (movements[k].medical.Some? && !BlankReference(reference)
          && reference.value in before.store.referenceNumbers ==>
            r.Rejected? && Rule(ReferenceExists) in r.messages)
  {
    var before := DischargeAll(config, io, store, now, movements[..k], true);
    var mov := movements[k];
    var errors := MovementErrors(config, before.store, now, mov, true);
    MovementErrorsAreBrokenRules(config, before.store, now, mov, true);
    if mov.medical.Some?
       && (BlankReference(mov.referenceNumber) || mov.referenceNumber.value in before.store.referenceNumbers) {
      var e := if BlankReference(mov.referenceNumber) then ReferenceMissing else ReferenceExists;
      assert e in errors;
      DischargeValidatedBeforeStored(config, io, before.store, now, mov, true);
      DischargeAllStopsAtFailure(config, io, store, now, movements, true, k);
      RuleReported(errors, [Description(mov.medical.value.description)], e);
    }
  }
}
