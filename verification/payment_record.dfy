/** The `StripePayment` schema: one stored document per payment, every path optional. */
module PaymentRecords {
  import opened Js

  /** The nested `billingDetails.address`, with Stripe's six address keys. */
  datatype Address = Address(
    line1: Value<string>,
    line2: Value<string>,
    city: Value<string>,
    state: Value<string>,
    postalCode: Value<string>,
    country: Value<string>)

  /** The object literal `{}`: an address with none of its keys set. */
  const EMPTY_ADDRESS: Address :=
    Address(Undefined, Undefined, Undefined, Undefined, Undefined, Undefined)

  /** The nested `billingDetails` path. */
  datatype BillingDetails = BillingDetails(name: Value<string>, email: Value<string>, address: Address)

  /**
   * The schema's declared paths. `amountTotal` is a Number; every other scalar
   * is a String. `Undefined` means the path is not stored (or, in an update
   * document, not given); no path is declared unique.
   */
  datatype Fields = Fields(
    sessionId: Value<string>,
    paymentIntentId: Value<string>,
    chargeId: Value<string>,
    customerEmail: Value<string>,
    amountTotal: Value<int>,
    currency: Value<string>,
    paymentStatus: Value<string>,
    paymentMethodType: Value<string>,
    receiptUrl: Value<string>,
    billingDetails: Value<BillingDetails>,
    errorMessage: Value<string>)

  /** A document with no path set. */
  const NO_FIELDS: Fields := Fields(
    Undefined, Undefined, Undefined, Undefined, Undefined, Undefined,
    Undefined, Undefined, Undefined, Undefined, Undefined)

  /** A stored document: its paths and the store-managed timestamps (`timestamps: true`). */
  datatype PaymentRecord = PaymentRecord(fields: Fields, createdAt: int, updatedAt: int)

  /** One path under `$set`: a given value (`null` included) replaces the stored one. */
  function Pick<T>(stored: Value<T>, given: Value<T>): Value<T> {
    if given.Undefined? then stored else given
  }

  /** `$set` of a whole update document: every path it gives replaces the stored path. */
  function Merge(stored: Fields, given: Fields): (m: Fields)
    ensures given == NO_FIELDS ==> m == stored
    ensures stored == NO_FIELDS ==> m == given
    ensures given.paymentIntentId.Undefined? ==> m.paymentIntentId == stored.paymentIntentId
    ensures !given.paymentStatus.Undefined? ==> m.paymentStatus == given.paymentStatus
    ensures !given.billingDetails.Undefined? ==> m.billingDetails == given.billingDetails
    ensures given.errorMessage.Undefined? ==> m.errorMessage == stored.errorMessage
  {
    Fields(
      Pick(stored.sessionId, given.sessionId),
      Pick(stored.paymentIntentId, given.paymentIntentId),
      Pick(stored.chargeId, given.chargeId),
      Pick(stored.customerEmail, given.customerEmail),
      Pick(stored.amountTotal, given.amountTotal),
      Pick(stored.currency, given.currency),
      Pick(stored.paymentStatus, given.paymentStatus),
      Pick(stored.paymentMethodType, given.paymentMethodType),
      Pick(stored.receiptUrl, given.receiptUrl),
      Pick(stored.billingDetails, given.billingDetails),
      Pick(stored.errorMessage, given.errorMessage))
  }

  /** A new document as inserted at time `now`: both timestamps are `now`. */
  function Inserted(doc: Fields, now: int): (r: PaymentRecord)
    ensures r.fields == doc
    ensures r.createdAt == now && r.updatedAt == now
  {
    PaymentRecord(doc, now, now)
  }

  /** A stored document after an update at time `now`: `createdAt` stays, `updatedAt` advances. */
  function Touched(r: PaymentRecord, given: Fields, now: int): (t: PaymentRecord)
    ensures t.createdAt == r.createdAt
    ensures t.updatedAt == now
    ensures given == NO_FIELDS ==> t.fields == r.fields
    ensures t.fields == Merge(r.fields, given)
  {
    PaymentRecord(Merge(r.fields, given), r.createdAt, now)
  }

  /**
   * `$set` laws: an empty update changes nothing, an update into an empty
   * document inserts exactly what it gives, repeating an update changes
   * nothing more, and two updates in a row act as their merge.
   */
  lemma MergeLaws(stored: Fields, given: Fields, later: Fields)
    ensures Merge(stored, NO_FIELDS) == stored
    ensures Merge(NO_FIELDS, given) == given
    ensures Merge(Merge(stored, given), given) == Merge(stored, given)
    ensures Merge(Merge(stored, given), later) == Merge(stored, Merge(given, later))
  {
  }
}
