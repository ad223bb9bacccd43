/**
 * The Stripe webhook endpoint: a verified event is dispatched on its type to
 * one mutation of the `StripePayment` collection, and acknowledged.
 */
module Webhook {
  import opened Js
  import opened PaymentRecords
  import opened Store

  /** `last_payment_error` of a PaymentIntent. */
  datatype LastPaymentError = LastPaymentError(message: Value<string>)

  /** `payment_method_details` of a Charge. */
  datatype PaymentMethodDetails = PaymentMethodDetails(methodType: Value<string>)

  /** `billing_details` of a Charge. */
  datatype StripeBillingDetails = StripeBillingDetails(name: Value<string>, email: Value<string>, address: Value<Address>)

  /**
   * `event.data.object`: the keys of a Checkout Session, a PaymentIntent or a
   * Charge that the handler reads (each absent key is `Undefined`).
   */
  datatype StripeObject = StripeObject(
    id: Value<string>,
    paymentIntent: Value<string>,
    customerEmail: Value<string>,
    amountTotal: Value<int>,
    currency: Value<string>,
    paymentStatus: Value<string>,
    status: Value<string>,
    lastPaymentError: Value<LastPaymentError>,
    receiptUrl: Value<string>,
    paymentMethodDetails: Value<PaymentMethodDetails>,
    billingDetails: Value<StripeBillingDetails>)

  /** A Stripe event: its `type` tag and `data.object`. */
  datatype Event = Event(eventType: string, data: StripeObject)

  /** The branches of the handler's `switch (event.type)`. */
  datatype EventKind = SessionCompleted | IntentSucceeded | IntentFailed | ChargeUpdated | Unhandled

  /** The `switch` on `event.type`: four tags are handled, every other one falls to `default`. */
  function Classify(eventType: string): (k: EventKind)
    ensures k == SessionCompleted <==> eventType == "checkout.session.completed"
    ensures k == IntentSucceeded <==> eventType == "payment_intent.succeeded"
    ensures k == IntentFailed <==> eventType == "payment_intent.payment_failed"
    ensures k == ChargeUpdated <==> eventType == "charge.updated"
  {
    if eventType == "checkout.session.completed" then SessionCompleted
    else if eventType == "payment_intent.succeeded" then IntentSucceeded
    else if eventType == "payment_intent.payment_failed" then IntentFailed
    else if eventType == "charge.updated" then ChargeUpdated
    else Unhandled
  }

  /** The type tag of a handled branch. */
  function TypeTag(kind: EventKind): string
    requires !kind.Unhandled?
  {
    match kind
    case SessionCompleted => "checkout.session.completed"
    case IntentSucceeded => "payment_intent.succeeded"
    case IntentFailed => "payment_intent.payment_failed"
    case ChargeUpdated => "charge.updated"
  }

  /** Each handled branch is reached by exactly one type tag. */
  lemma ClassifyRoundTrip(kind: EventKind, eventType: string)
    ensures !kind.Unhandled? ==> Classify(TypeTag(kind)) == kind
    ensures !Classify(eventType).Unhandled? ==> TypeTag(Classify(eventType)) == eventType
  {
  }

  /** The document `create` receives on `checkout.session.completed`. */
  function SessionDoc(d: StripeObject): (doc: Fields)
    ensures doc.sessionId == d.id && doc.paymentIntentId == d.paymentIntent
    ensures doc.customerEmail == d.customerEmail && doc.amountTotal == d.amountTotal
    ensures doc.currency == d.currency && doc.paymentStatus == d.paymentStatus
    ensures doc.chargeId.Undefined? && doc.receiptUrl.Undefined? && doc.paymentMethodType.Undefined?
    ensures doc.billingDetails.Undefined? && doc.errorMessage.Undefined?
  {
    NO_FIELDS.(
      sessionId := d.id,
      paymentIntentId := d.paymentIntent,
      customerEmail := d.customerEmail,
      amountTotal := d.amountTotal,
      currency := d.currency,
      paymentStatus := d.paymentStatus)
  }

  /** The update on `payment_intent.succeeded`; `updated` is not a schema path. */
  function SucceededUpdate(d: StripeObject, now: int): (u: UpdateDoc)
    ensures forall stored :: Merge(stored, u.fields) == stored.(paymentStatus := Pick(stored.paymentStatus, d.status))
    ensures u.stray.Keys == {"updated"}
  {
    UpdateDoc(NO_FIELDS.(paymentStatus := d.status), map["updated" := StrayDate(now)])
  }

  /** `data.last_payment_error?.message`. */
  function FailureMessage(d: StripeObject): (m: Value<string>)
    ensures !d.lastPaymentError.Defined? ==> m == Undefined
    ensures d.lastPaymentError.Defined? ==> m == d.lastPaymentError.value.message
  {
    if d.lastPaymentError.Defined? then d.lastPaymentError.value.message else Undefined
  }

  /**
   * The update on `payment_intent.payment_failed`: the message travels under
   * `error`, which, like `updated`, is not a schema path.
   */
  function FailedUpdate(d: StripeObject, now: int): (u: UpdateDoc)
    ensures forall stored :: Merge(stored, u.fields) == stored.(paymentStatus := Defined("failed"))
    ensures u.fields.errorMessage.Undefined?
    ensures u.stray.Keys == {"error", "updated"}
    ensures u.stray["error"] == StrayText(FailureMessage(d))
  {
    UpdateDoc(
      NO_FIELDS.(paymentStatus := Defined("failed")),
      map["error" := StrayText(FailureMessage(d)), "updated" := StrayDate(now)])
  }

  /**
   * The `billingDetails` object written on `charge.updated`: `name` and `email`
   * fall back to `''`, `address` to `{}`.
   */
  function ChargeBilling(d: StripeObject): (b: BillingDetails)
    ensures b.name.Defined? && b.email.Defined?
    ensures !d.billingDetails.Defined? ==> b == BillingDetails(Defined(""), Defined(""), EMPTY_ADDRESS)
    ensures d.billingDetails.Defined? && Truthy(d.billingDetails.value.name) ==> b.name == d.billingDetails.value.name
    ensures d.billingDetails.Defined? && !Truthy(d.billingDetails.value.name) ==> b.name == Defined("")
    ensures d.billingDetails.Defined? && Truthy(d.billingDetails.value.email) ==> b.email == d.billingDetails.value.email
    ensures d.billingDetails.Defined? && !Truthy(d.billingDetails.value.email) ==> b.email == Defined("")
    ensures d.billingDetails.Defined? && d.billingDetails.value.address.Defined? ==> b.address == d.billingDetails.value.address.value
    ensures d.billingDetails.Defined? && !d.billingDetails.value.address.Defined? ==> b.address == EMPTY_ADDRESS
  {
    var given := d.billingDetails;
    BillingDetails(
      Defined(OrElse(if given.Defined? then given.value.name else Undefined, "")),
      Defined(OrElse(if given.Defined? then given.value.email else Undefined, "")),
      if given.Defined? && given.value.address.Defined? then given.value.address.value else EMPTY_ADDRESS)
  }

  /** `data.payment_method_details?.type || ''`. */
  function MethodType(d: StripeObject): (m: string)
    ensures d.paymentMethodDetails.Defined? && Truthy(d.paymentMethodDetails.value.methodType) ==>
      m == d.paymentMethodDetails.value.methodType.value
    ensures !(d.paymentMethodDetails.Defined? && Truthy(d.paymentMethodDetails.value.methodType)) ==> m == ""
  {
    OrElse(if d.paymentMethodDetails.Defined? then d.paymentMethodDetails.value.methodType else Undefined, "")
  }

  /** The update on `charge.updated`. */
  function ChargeUpdate(d: StripeObject): (u: UpdateDoc)
    ensures u.fields.chargeId == d.id && u.fields.receiptUrl == d.receiptUrl && u.fields.paymentStatus == d.status
    ensures u.fields.paymentMethodType == Defined(MethodType(d))
    ensures u.fields.billingDetails == Defined(ChargeBilling(d))
    ensures u.fields.paymentIntentId.Undefined? && u.fields.sessionId.Undefined? && u.fields.customerEmail.Undefined?
    ensures u.fields.amountTotal.Undefined? && u.fields.currency.Undefined? && u.fields.errorMessage.Undefined?
    ensures u.stray == map[]
  {
    UpdateDoc(
      NO_FIELDS.(
        chargeId := d.id,
        receiptUrl := d.receiptUrl,
        paymentStatus := d.status,
        paymentMethodType := Defined(MethodType(d)),
        billingDetails := Defined(ChargeBilling(d))),
      map[])
  }

  /**
   * The collection after a verified event at time `now`; with `fault` the
   * store operation throws and writes nothing.
   */
  function Dispatch(rs: seq<PaymentRecord>, ev: Event, now: int, fault: bool): (r: seq<PaymentRecord>)
    ensures fault || Classify(ev.eventType).Unhandled? ==> r == rs
    ensures |rs| <= |r| <= |rs| + 1
    ensures |r| == |rs| + 1 ==> !fault && Classify(ev.eventType) in {SessionCompleted, ChargeUpdated}
    ensures !fault && Classify(ev.eventType).SessionCompleted? ==> |r| == |rs| + 1
  {
    var d := ev.data;
    if fault then rs
    else match Classify(ev.eventType)
      case SessionCompleted => Created(rs, SessionDoc(d), now)
      case IntentSucceeded => Updated(rs, d.id, SucceededUpdate(d, now), false, now)
      case IntentFailed => Updated(rs, d.id, FailedUpdate(d, now), false, now)
      case ChargeUpdated => Updated(rs, d.paymentIntent, ChargeUpdate(d), true, now)
      case Unhandled => rs
  }

  /** A response body: plain text, or the JSON `{ received: true }`. */
  datatype Body = Text(text: string) | Received

  datatype Response = Response(status: int, body: Body)

  /** The response sent and the collection left behind. */
  datatype Outcome = Outcome(response: Response, records: seq<PaymentRecord>)

  /** The whole handler, given the outcome of signature verification. */
  function Webhook(rs: seq<PaymentRecord>, verified: Result<Event, string>, now: int, fault: bool): (o: Outcome)
    ensures o.response.status == 400 <==> verified.Err?
    ensures verified.Err? ==> o.records == rs && o.response.body == Text("Webhook Error: " + verified.error)
    ensures verified.Ok? ==> o.response == Response(200, Received)
    ensures |rs| <= |o.records| <= |rs| + 1
  {
    match verified
    case Err(message) => Outcome(Response(400, Text("Webhook Error: " + message)), rs)
    case Ok(ev) => Outcome(Response(200, Received), Dispatch(rs, ev, now, fault))
  }

  /**
   * `router.post('/')`. `verified` is what `stripe.webhooks.constructEvent`
   * returned or threw, `now` the clock, `fault` whether the store throws.
   */
  method Handle(payments: StripePayments, verified: Result<Event, string>, now: int, fault: bool) returns (res: Response)
    modifies payments
    ensures Outcome(res, payments.records) == Webhook(old(payments.records), verified, now, fault)
  {
    if verified.Err? {
      return Response(400, Text("Webhook Error: " + verified.error));
    }
    var event := verified.value;
    var data := event.data;
    match Classify(event.eventType) {
      case SessionCompleted =>
        var _ := payments.Create(SessionDoc(data), now, fault);
      case IntentSucceeded =>
        var _ := payments.FindOneAndUpdate(data.id, SucceededUpdate(data, now), false, now, fault);
      case IntentFailed =>
        var _ := payments.FindOneAndUpdate(data.id, FailedUpdate(data, now), false, now, fault);
      case ChargeUpdated =>
        var _ := payments.FindOneAndUpdate(data.paymentIntent, ChargeUpdate(data), true, now, fault);
      case Unhandled =>
    }
    res := Response(200, Received);
  }

  /** A failed verification is answered with 400 and its message, and writes nothing. */
  lemma RejectedEventWritesNothing(rs: seq<PaymentRecord>, message: string, now: int, fault: bool)
    ensures Webhook(rs, Err(message), now, fault).response.status == 400
    ensures Webhook(rs, Err(message), now, fault).response.body.Text?
    ensures Webhook(rs, Err(message), now, fault).response.body.text == "Webhook Error: " + message
    ensures Webhook(rs, Err(message), now, fault).records == rs
  {
  }

  /**
   * A verified event is always acknowledged with `{ received: true }`, even
   * when the store throws (and then nothing is written).
   */
  lemma VerifiedEventAcknowledged(rs: seq<PaymentRecord>, ev: Event, now: int, fault: bool)
    ensures Webhook(rs, Ok(ev), now, fault).response == Response(200, Received)
    ensures fault ==> Webhook(rs, Ok(ev), now, fault).records == rs
  {
  }

  /** An event whose type the switch does not handle leaves the collection unchanged. */
  lemma UnhandledEventIgnored(rs: seq<PaymentRecord>, ev: Event, now: int, fault: bool)
    requires Classify(ev.eventType).Unhandled?
    ensures Dispatch(rs, ev, now, fault) == rs
  {
  }

  /**
   * `checkout.session.completed` appends exactly one document, holding the
   * session's id, intent, email, amount, currency and status and nothing else.
   */
  lemma SessionCompletedAppends(rs: seq<PaymentRecord>, ev: Event, now: int)
    requires ev.eventType == "checkout.session.completed"
    ensures var r := Dispatch(rs, ev, now, false);
      && |r| == |rs| + 1
      && r[..|rs|] == rs
      && r[|rs|].fields.sessionId == ev.data.id
      && r[|rs|].fields.paymentIntentId == ev.data.paymentIntent
      && r[|rs|].fields.customerEmail == ev.data.customerEmail
      && r[|rs|].fields.amountTotal == ev.data.amountTotal
      && r[|rs|].fields.currency == ev.data.currency
      && r[|rs|].fields.paymentStatus == ev.data.paymentStatus
      && r[|rs|].fields.chargeId.Undefined?
      && r[|rs|].fields.receiptUrl.Undefined?
      && r[|rs|].fields.paymentMethodType.Undefined?
      && r[|rs|].fields.billingDetails.Undefined?
      && r[|rs|].fields.errorMessage.Undefined?
      && r[|rs|].createdAt == now
      && r[|rs|].updatedAt == now
  {
  }

  /** Delivering the same `checkout.session.completed` twice stores two identical documents. */
  lemma RepeatedSessionCompletedDuplicates(rs: seq<PaymentRecord>, ev: Event, t1: int, t2: int)
    requires ev.eventType == "checkout.session.completed"
    ensures var r := Dispatch(Dispatch(rs, ev, t1, false), ev, t2, false);
      && |r| == |rs| + 2
      && r[..|rs|] == rs
      && r[|rs|].fields == r[|rs| + 1].fields
      && r[|rs|].fields.sessionId == ev.data.id
  {
  }

  /**
   * `payment_intent.succeeded` sets `paymentStatus` on the first document whose
   * `paymentIntentId` is the intent's id, and changes nothing else; with no such
   * document, it changes nothing at all.
   */
  lemma IntentSucceededUpdatesFirstMatch(rs: seq<PaymentRecord>, ev: Event, now: int)
    requires ev.eventType == "payment_intent.succeeded"
    ensures var r := Dispatch(rs, ev, now, false);
      var i := FirstMatch(rs, ev.data.id);
      && (i == |rs| ==> r == rs)
      && (i < |rs| ==>
            && |r| == |rs|
            && r[i].fields == rs[i].fields.(paymentStatus := Pick(rs[i].fields.paymentStatus, ev.data.status))
            && r[i].createdAt == rs[i].createdAt
            && r[i].updatedAt == now
            && forall j :: 0 <= j < |rs| && j != i ==> r[j] == rs[j])
  {
    var i := FirstMatch(rs, ev.data.id);
    if i < |rs| {
      UpdateHitsFirstMatch(rs, ev.data.id, SucceededUpdate(ev.data, now), false, now, i);
    } else {
      UpdateMisses(rs, ev.data.id, SucceededUpdate(ev.data, now), false, now);
    }
  }

  /**
   * `payment_intent.payment_failed` sets `paymentStatus` to `'failed'` on the
   * first matching document and changes nothing else; with no match, nothing.
   * The failure message is passed under `error`, so `errorMessage` is never
   * written and the message has no effect on the collection.
   */
  lemma IntentFailedUpdatesFirstMatch(rs: seq<PaymentRecord>, ev: Event, now: int, otherError: Value<LastPaymentError>)
    requires ev.eventType == "payment_intent.payment_failed"
    ensures var r := Dispatch(rs, ev, now, false);
      var i := FirstMatch(rs, ev.data.id);
      && (i == |rs| ==> r == rs)
      && (i < |rs| ==>
            && |r| == |rs|
            && r[i].fields == rs[i].fields.(paymentStatus := Defined("failed"))
            && r[i].createdAt == rs[i].createdAt
            && r[i].updatedAt == now
            && forall j :: 0 <= j < |rs| && j != i ==> r[j] == rs[j])
      && (forall j :: 0 <= j < |r| ==> r[j].fields.errorMessage == rs[j].fields.errorMessage)
      && r == Dispatch(rs, ev.(data := ev.data.(lastPaymentError := otherError)), now, false)
  {
    var i := FirstMatch(rs, ev.data.id);
    if i < |rs| {
      UpdateHitsFirstMatch(rs, ev.data.id, FailedUpdate(ev.data, now), false, now, i);
    } else {
      UpdateMisses(rs, ev.data.id, FailedUpdate(ev.data, now), false, now);
    }
  }

  /**
   * What `charge.updated` leaves in a document that had the paths `before`:
   * charge id, receipt and status as given, the method type or `''`, the
   * billing details replaced wholesale, and every other path as it was.
   */
  predicate ChargeApplied(before: Fields, after: Fields, d: StripeObject) {
    && after.chargeId == Pick(before.chargeId, d.id)
    && after.receiptUrl == Pick(before.receiptUrl, d.receiptUrl)
    && after.paymentStatus == Pick(before.paymentStatus, d.status)
    && after.paymentMethodType == Defined(MethodType(d))
    && after.billingDetails == Defined(ChargeBilling(d))
    && after.sessionId == before.sessionId
    && after.paymentIntentId == before.paymentIntentId
    && after.customerEmail == before.customerEmail
    && after.amountTotal == before.amountTotal
    && after.currency == before.currency
    && after.errorMessage == before.errorMessage
  }

  /**
   * `charge.updated` is an upsert on the charge's `payment_intent`: the first
   * matching document is updated; with none, one document holding only the
   * intent and the charge's paths is appended. Afterwards some document
   * carries the intent.
   */
  lemma ChargeUpdatedUpserts(rs: seq<PaymentRecord>, ev: Event, now: int)
    requires ev.eventType == "charge.updated"
    ensures var r := Dispatch(rs, ev, now, false);
      var key := ev.data.paymentIntent;
      var i := FirstMatch(rs, key);
      && (exists j :: 0 <= j < |r| && Matches(r[j], key))
      && (i < |rs| ==>
            && |r| == |rs|
            && ChargeApplied(rs[i].fields, r[i].fields, ev.data)
            && r[i].createdAt == rs[i].createdAt
            && r[i].updatedAt == now
            && forall j :: 0 <= j < |rs| && j != i ==> r[j] == rs[j])
      && (i == |rs| ==>
            && |r| == |rs| + 1
            && r[..|rs|] == rs
            && ChargeApplied(UpsertSeed(key), r[|rs|].fields, ev.data)
            && r[|rs|].createdAt == now
            && r[|rs|].updatedAt == now)
  {
    var key := ev.data.paymentIntent;
    var update := ChargeUpdate(ev.data);
    var i := FirstMatch(rs, key);
    var r := Dispatch(rs, ev, now, false);
    assert r == Updated(rs, key, update, true, now);
    UpsertLeavesMatch(rs, key, update, now);
    if i < |rs| {
      UpdateHitsFirstMatch(rs, key, update, true, now, i);
      assert r[i] == Touched(rs[i], update.fields, now);
      ChargeMergeApplies(rs[i].fields, ev.data);
    } else {
      UpdateMisses(rs, key, update, true, now);
      ChargeMergeApplies(UpsertSeed(key), ev.data);
    }
  }

  /** Merging the `charge.updated` document into any paths gives `ChargeApplied`. */
  lemma ChargeMergeApplies(before: Fields, d: StripeObject)
    ensures ChargeApplied(before, Merge(before, ChargeUpdate(d).fields), d)
  {
  }

  /** The key an update event's `findOneAndUpdate` filters on. */
  function EventKey(ev: Event): Value<string>
    requires Classify(ev.eventType) in {IntentSucceeded, IntentFailed, ChargeUpdated}
  {
    if Classify(ev.eventType).ChargeUpdated? then ev.data.paymentIntent else ev.data.id
  }

  /**
   * Every event changes at most one existing document, never one whose
   * `paymentIntentId` differs from the event's key, and adds at most one.
   */
  lemma EventTouchesAtMostOne(rs: seq<PaymentRecord>, ev: Event, now: int, fault: bool)
    ensures var r := Dispatch(rs, ev, now, fault);
      && |rs| <= |r| <= |rs| + 1
      && (forall j, k :: 0 <= j < k < |rs| ==> r[j] == rs[j] || r[k] == rs[k])
      && (Classify(ev.eventType).SessionCompleted? ==> r[..|rs|] == rs)
      && (Classify(ev.eventType) in {IntentSucceeded, IntentFailed, ChargeUpdated} ==>
            forall j :: 0 <= j < |rs| && !Matches(rs[j], EventKey(ev)) ==> r[j] == rs[j])
  {
    var d := ev.data;
    if !fault {
      match Classify(ev.eventType)
      case SessionCompleted =>
      case IntentSucceeded => UpdateTouchesAtMostOne(rs, d.id, SucceededUpdate(d, now), false, now);
      case IntentFailed => UpdateTouchesAtMostOne(rs, d.id, FailedUpdate(d, now), false, now);
      case ChargeUpdated => UpdateTouchesAtMostOne(rs, d.paymentIntent, ChargeUpdate(d), true, now);
      case Unhandled =>
    }
  }

  /**
   * The three update events are idempotent: delivering one again, at any
   * later time, leaves every stored path as the first delivery left it.
   */
  lemma UpdateEventsIdempotent(rs: seq<PaymentRecord>, ev: Event, t1: int, t2: int)
    requires Classify(ev.eventType) in {IntentSucceeded, IntentFailed, ChargeUpdated}
    ensures var once := Dispatch(rs, ev, t1, false);
      Contents(Dispatch(once, ev, t2, false)) == Contents(once)
  {
    var d := ev.data;
    var once := Dispatch(rs, ev, t1, false);
    match Classify(ev.eventType)
    case IntentSucceeded =>
      UpdateIdempotent(rs, d.id, SucceededUpdate(d, t1), false, t1, t2);
      assert Dispatch(once, ev, t2, false) == Updated(once, d.id, SucceededUpdate(d, t1), false, t2);
    case IntentFailed =>
      UpdateIdempotent(rs, d.id, FailedUpdate(d, t1), false, t1, t2);
      assert Dispatch(once, ev, t2, false) == Updated(once, d.id, FailedUpdate(d, t1), false, t2);
    case ChargeUpdated =>
      UpdateIdempotent(rs, d.paymentIntent, ChargeUpdate(d), true, t1, t2);
  }

  /** A data object with none of the keys the handler reads. */
  const BLANK_OBJECT: StripeObject := StripeObject(
    Undefined, Undefined, Undefined, Undefined, Undefined, Undefined,
    Undefined, Undefined, Undefined, Undefined, Undefined)

  /**
   * A completed checkout for intent `pi_1` followed by an update of its charge
   * leaves one document: the session's amount kept, the charge's id, status
   * and method type added.
   */
  lemma CheckoutThenChargeScenario(t1: int, t2: int)
    ensures var session := Event("checkout.session.completed", BLANK_OBJECT.(
        id := Defined("cs_1"), paymentIntent := Defined("pi_1"),
        amountTotal := Defined(1999), paymentStatus := Defined("complete")));
      var charge := Event("charge.updated", BLANK_OBJECT.(
        id := Defined("ch_1"), paymentIntent := Defined("pi_1"), status := Defined("succeeded"),
        paymentMethodDetails := Defined(PaymentMethodDetails(Defined("card")))));
      var r := Dispatch(Dispatch([], session, t1, false), charge, t2, false);
      && |r| == 1
      && r[0].fields.sessionId == Defined("cs_1")
      && r[0].fields.chargeId == Defined("ch_1")
      && r[0].fields.paymentStatus == Defined("succeeded")
      && r[0].fields.paymentMethodType == Defined("card")
      && r[0].fields.amountTotal == Defined(1999)
      && r[0].createdAt == t1
      && r[0].updatedAt == t2
  {
  }
}
