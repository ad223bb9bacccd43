/**
 * The `StripePayment` collection: an ordered sequence of stored documents and
 * the two operations the webhook handler calls on it, `create` and
 * `findOneAndUpdate` (with and without `upsert`).
 */
module Store {
  import opened Js
  import opened PaymentRecords

  /** The value of an update key that the schema does not declare. */
  datatype Stray = StrayDate(time: int) | StrayText(text: Value<string>)

  /**
   * An update document as the handler writes it: the schema paths it gives,
   * and the keys outside the schema, which the store's strict mode discards.
   */
  datatype UpdateDoc = UpdateDoc(fields: Fields, stray: map<string, Stray>)

  /**
   * The filter `{ paymentIntentId: key }`. A `null` key (and an `undefined`
   * one, which the driver sends as `null`) matches documents whose path is
   * `null` or missing.
   */
  predicate Matches(r: PaymentRecord, key: Value<string>)
    ensures Matches(r, key) <==> Serialized(r.fields.paymentIntentId) == Serialized(key)
  {
    if key.Defined? then r.fields.paymentIntentId == key
    else !r.fields.paymentIntentId.Defined?
  }

  /** Position of the first document the filter matches, or `|rs|` when there is none. */
  function FirstMatch(rs: seq<PaymentRecord>, key: Value<string>): (i: nat)
    ensures i <= |rs|
    ensures i < |rs| ==> Matches(rs[i], key)
    ensures forall j :: 0 <= j < i ==> !Matches(rs[j], key)
  {
    if rs == [] then 0
    else if Matches(rs[0], key) then 0
    else 1 + FirstMatch(rs[1..], key)
  }

  /** The collection after `create(doc)` at time `now`: the new document is appended. */
  function Created(rs: seq<PaymentRecord>, doc: Fields, now: int): (r: seq<PaymentRecord>)
    ensures |r| == |rs| + 1 && r[..|rs|] == rs
    ensures r[|rs|].fields == doc && r[|rs|].createdAt == now && r[|rs|].updatedAt == now
  {
    rs + [Inserted(doc, now)]
  }

  /** What an upsert copies from the filter into the new document. */
  function UpsertSeed(key: Value<string>): Fields {
    NO_FIELDS.(paymentIntentId := if key.Defined? then key else Null)
  }

  /**
   * The collection after `findOneAndUpdate({ paymentIntentId: key }, update, { upsert })`
   * at time `now`: the first match is updated; with no match, an upsert
   * inserts the filter's key together with the update, otherwise nothing changes.
   */
  function Updated(rs: seq<PaymentRecord>, key: Value<string>, update: UpdateDoc, upsert: bool, now: int): (r: seq<PaymentRecord>)
    ensures |rs| <= |r| <= |rs| + 1
    ensures forall j :: 0 <= j < |rs| && j != FirstMatch(rs, key) ==> r[j] == rs[j]
    ensures |r| == |rs| + 1 <==> upsert && FirstMatch(rs, key) == |rs|
    ensures |r| == |rs| + 1 && update.fields.paymentIntentId.Undefined? ==> Matches(r[|rs|], key)
  {
    var i := FirstMatch(rs, key);
    if i < |rs| then rs[i := Touched(rs[i], update.fields, now)]
    else if upsert then rs + [Inserted(Merge(UpsertSeed(key), update.fields), now)]
    else rs
  }

  /** The stored paths of every document, timestamps left out. */
  function Contents(rs: seq<PaymentRecord>): seq<Fields> {
    seq(|rs|, i requires 0 <= i < |rs| => rs[i].fields)
  }

  /** When document `i` is the first match, the update changes it and nothing else. */
  lemma UpdateHitsFirstMatch(rs: seq<PaymentRecord>, key: Value<string>, update: UpdateDoc, upsert: bool, now: int, i: nat)
    requires i < |rs| && Matches(rs[i], key)
    requires forall j :: 0 <= j < i ==> !Matches(rs[j], key)
    ensures Updated(rs, key, update, upsert, now) == rs[i := Touched(rs[i], update.fields, now)]
  {
  }

  /**
   * When nothing matches, an update without upsert is a no-op, and an upsert
   * appends one document that carries the filter's key.
   */
  lemma UpdateMisses(rs: seq<PaymentRecord>, key: Value<string>, update: UpdateDoc, upsert: bool, now: int)
    requires forall j :: 0 <= j < |rs| ==> !Matches(rs[j], key)
    ensures !upsert ==> Updated(rs, key, update, upsert, now) == rs
    ensures upsert ==> Updated(rs, key, update, upsert, now) == rs + [Inserted(Merge(UpsertSeed(key), update.fields), now)]
    ensures upsert && update.fields.paymentIntentId.Undefined? ==> Matches(Inserted(Merge(UpsertSeed(key), update.fields), now), key)
  {
    assert FirstMatch(rs, key) == |rs|;
  }

  /**
   * Any `findOneAndUpdate` changes at most one existing document, never one the
   * filter does not match, keeps every `createdAt`, and grows the collection by
   * at most one document, only on an upsert that found nothing.
   */
  lemma UpdateTouchesAtMostOne(rs: seq<PaymentRecord>, key: Value<string>, update: UpdateDoc, upsert: bool, now: int)
    ensures var r := Updated(rs, key, update, upsert, now);
      && |rs| <= |r| <= |rs| + 1
      && (|r| == |rs| + 1 ==> upsert && forall j :: 0 <= j < |rs| ==> !Matches(rs[j], key))
      && (forall j, k :: 0 <= j < k < |rs| ==> r[j] == rs[j] || r[k] == rs[k])
      && (forall j :: 0 <= j < |rs| && !Matches(rs[j], key) ==> r[j] == rs[j])
      && (forall j :: 0 <= j < |rs| ==> r[j].createdAt == rs[j].createdAt)
      && (forall j :: 0 <= j < |rs| && r[j] != rs[j] ==> r[j].updatedAt == now)
  {
  }

  /** After an upsert, some document carries the filter's key. */
  lemma UpsertLeavesMatch(rs: seq<PaymentRecord>, key: Value<string>, update: UpdateDoc, now: int)
    requires update.fields.paymentIntentId.Undefined?
    ensures var r := Updated(rs, key, update, true, now);
      exists j :: 0 <= j < |r| && Matches(r[j], key)
  {
    var i := FirstMatch(rs, key);
    var r := Updated(rs, key, update, true, now);
    if i < |rs| {
      assert Matches(r[i], key);
    } else {
      UpdateMisses(rs, key, update, true, now);
      assert Matches(r[|rs|], key);
    }
  }

  /**
   * An update that does not rewrite the key is idempotent: repeating it, at any
   * later time, leaves every stored path as the first application left it.
   */
  lemma UpdateIdempotent(rs: seq<PaymentRecord>, key: Value<string>, update: UpdateDoc, upsert: bool, t1: int, t2: int)
    requires update.fields.paymentIntentId.Undefined?
    ensures var once := Updated(rs, key, update, upsert, t1);
      Contents(Updated(once, key, update, upsert, t2)) == Contents(once)
  {
    var once := Updated(rs, key, update, upsert, t1);
    var i := FirstMatch(rs, key);
    if i < |rs| {
      assert Matches(once[i], key);
      UpdateHitsFirstMatch(once, key, update, upsert, t2, i);
      MergeLaws(rs[i].fields, update.fields, update.fields);
    } else if upsert {
      UpdateMisses(rs, key, update, upsert, t1);
      assert Matches(once[|rs|], key);
      UpdateHitsFirstMatch(once, key, update, upsert, t2, |rs|);
      MergeLaws(once[|rs|].fields, update.fields, update.fields);
    }
    var twice := Updated(once, key, update, upsert, t2);
    assert Contents(twice) == Contents(once) by {
      assert |twice| == |once|;
      forall j | 0 <= j < |once|
        ensures twice[j].fields == once[j].fields
      {
      }
    }
  }

  /** The `StripePayment` collection, updated in place by the webhook handler. */
  class StripePayments {
    var records: seq<PaymentRecord>

    constructor ()
      ensures records == []
    {
      records := [];
    }

    /**
     * `StripePayment.create(doc)`. With `fault` the store throws and writes
     * nothing; otherwise a new document is appended, with no uniqueness check.
     */
    method Create(doc: Fields, now: int, fault: bool) returns (ok: bool)
      modifies this
      ensures ok == !fault
      ensures records == if fault then old(records) else Created(old(records), doc, now)
    {
      if fault {
        return false;
      }
      records := records + [Inserted(doc, now)];
      ok := true;
    }

    /**
     * `StripePayment.findOneAndUpdate({ paymentIntentId: key }, update, { upsert })`.
     * With `fault` the store throws and writes nothing.
     */
    method FindOneAndUpdate(key: Value<string>, update: UpdateDoc, upsert: bool, now: int, fault: bool) returns (ok: bool)
      modifies this
      ensures ok == !fault
      ensures records == if fault then old(records) else Updated(old(records), key, update, upsert, now)
    {
      if fault {
        return false;
      }
      var i := 0;
      while i < |records| && !Matches(records[i], key)
        invariant 0 <= i <= |records|
        invariant forall j :: 0 <= j < i ==> !Matches(records[j], key)
      {
        i := i + 1;
      }
      if i < |records| {
        UpdateHitsFirstMatch(records, key, update, upsert, now, i);
        records := records[i := Touched(records[i], update.fields, now)];
      } else {
        UpdateMisses(records, key, update, upsert, now);
        if upsert {
          records := records + [Inserted(Merge(UpsertSeed(key), update.fields), now)];
        }
      }
      ok := true;
    }
  }
}
