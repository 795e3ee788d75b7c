/** The entities that a stock movement refers to, the facility-wide settings
    that steer validation, and the parts of the stores that validation reads. */
module StockTypes {
  import opened Wrappers

  /** A point in time (a LocalDateTime), as a count of ticks: only the order matters. */
  type Date = int

  /** An item of the medical catalog. */
  datatype Medical = Medical(code: int, description: string, minqty: int, totalQuantity: int)

  /** A lot of one medical. The dates and the cost may be missing (null). */
  datatype Lot = Lot(
    code: string,
    preparationDate: Option<Date>,
    dueDate: Option<Date>,
    cost: Option<real>,
    mainStoreQuantity: int)

  /** How many UTF-16 code units a character takes in a Java string: two for a
      character outside the Basic Multilingual Plane (a surrogate pair), one
      otherwise. */
  function Utf16Units(c: char): (n: nat)
    ensures n == 1 || n == 2
    ensures n == 2 <==> c as int >= 0x10000
  {
    if c as int >= 0x10000 then 2 else 1
  }

  /** The length a Java string reports for `s`: the number of its UTF-16 code
      units, which is at least the number of characters and at most twice it. */
  function Utf16Length(s: string): (n: nat)
    ensures |s| <= n <= 2 * |s|
    decreases |s|
  {
    if s == [] then 0 else Utf16Units(s[0]) + Utf16Length(s[1..])
  }

  /** The Java length of a string is its number of characters exactly when no
      character lies outside the Basic Multilingual Plane. */
  lemma {:induction false} Utf16LengthInsideBmp(s: string)
    ensures Utf16Length(s) == |s| <==> forall i :: 0 <= i < |s| ==> s[i] as int < 0x10000
    decreases |s|
  {
    if s != [] {
      Utf16LengthInsideBmp(s[1..]);
      assert forall i :: 1 <= i < |s| ==> s[i] == s[1..][i - 1];
    }
  }

  /** A string made only of characters outside the Basic Multilingual Plane is
      twice as long in Java as it has characters. */
  lemma {:induction false} Utf16LengthOutsideBmp(s: string)
    requires forall i :: 0 <= i < |s| ==> s[i] as int >= 0x10000
    ensures Utf16Length(s) == 2 * |s|
    decreases |s|
  {
    if s != [] {
      assert forall i :: 0 <= i < |s[1..]| ==> s[1..][i] == s[i + 1];
      Utf16LengthOutsideBmp(s[1..]);
    }
  }

  /** A movement type; its code contains '+' for a charge, otherwise it is a discharge. */
  datatype MovementType = MovementType(code: string)

  /** A candidate stock movement; every reference the source may leave null is an Option. */
  datatype Movement = Movement(
    movementType: Option<MovementType>,
    date: Date,
    quantity: int,
    referenceNumber: Option<string>,
    medical: Option<Medical>,
    lot: Option<Lot>,
    supplier: Option<int>,
    ward: Option<string>)

  /** The facility-wide flags AUTOMATICLOT_IN, AUTOMATICLOT_OUT and LOTWITHCOST. */
  datatype StockConfig = StockConfig(automaticLotIn: bool, automaticLotOut: bool, lotWithCost: bool)

  /** What the movement store answers to validation: the date of the last movement
      (absent when there is none), the reference numbers in use, and for each lot code
      the ids of the medicals of the movements that reference it. */
  datatype StockStore = StockStore(
    lastMovementDate: Option<Date>,
    referenceNumbers: set<string>,
    lotMedicals: map<string, seq<int>>)

  /** The medical ids that reference a lot code; none for an unknown code. */
  function MedicalsFromLot(store: StockStore, code: string): seq<int>
  {
    if code in store.lotMedicals then store.lotMedicals[code] else []
  }

  /** A movement is a charge when it has a type whose code contains '+'. */
  predicate IsCharge(mov: Movement)
  {
    mov.movementType.Some? && '+' in mov.movementType.value.code
  }

  /** Every reason the validation of a movement can reject it. */
  datatype ValidationError =
    | FutureDate
    | BeforeLastMovement
    | ReferenceMissing
    | ReferenceExists
    | TypeMissing
    | SupplierMissing
    | WardMissing
    | ZeroQuantity
    | MedicalMissing
    | LotCodeTooLong
    | PreparationDateMissing
    | DueDateMissing
    | PreparationAfterDue
    | LotOfAnotherMedical
    | CostNotPositive
    | QuantityExceedsLot
    | LotMissing

  /** A message of a failed batch: a broken rule, a failure reported by the store,
      the description of the medical of the rejected movement, or the placeholder
      used when that movement has no medical. */
  datatype Message =
    | Rule(error: ValidationError)
    | Storage(text: string)
    | Description(text: string)
    | NoDescription

  /** The messages that report a list of broken rules, in the same order. */
  function AsMessages(errors: seq<ValidationError>): (ms: seq<Message>)
    ensures |ms| == |errors|
    ensures forall i :: 0 <= i < |errors| ==> ms[i] == Rule(errors[i])
  {
    seq(|errors|, i requires 0 <= i < |errors| => Rule(errors[i]))
  }

  /** The messages of a failed storage operation, in the same order. */
  function AsStorageMessages(texts: seq<string>): (ms: seq<Message>)
    ensures |ms| == |texts|
    ensures forall i :: 0 <= i < |texts| ==> ms[i] == Storage(texts[i])
  {
    seq(|texts|, i requires 0 <= i < |texts| => Storage(texts[i]))
  }
}
