/**
 * The payment provider's webhook (app/api/webhooks/abacatepay/route.ts):
 * the shared-secret gate, the dispatch on the event name, the resolution of
 * the professional id and the four event handlers, each as a function from
 * the tables before to the tables after and an outcome. Every database
 * statement whose error the route checks has a fault flag; a flagged
 * statement writes nothing.
 */
module Webhook {
  import opened Common
  import opened Tables

  /** The events the route dispatches on; any other name is `Unknown`. */
  datatype Event = Created | Paid | Canceled | Failed | Unknown

  function EventName(e: Event): string
    requires e != Unknown
  {
    match e
    case Created => "billing.created"
    case Paid => "billing.paid"
    case Canceled => "billing.canceled"
    case Failed => "billing.failed"
  }

  /** The `switch (event.event)` of the route. */
  function ParseEvent(name: string): (e: Event)
    ensures e != Unknown ==> EventName(e) == name
    ensures e == Unknown ==> forall k: Event :: k != Unknown ==> EventName(k) != name
  {
    if name == "billing.created" then Created
    else if name == "billing.paid" then Paid
    else if name == "billing.canceled" then Canceled
    else if name == "billing.failed" then Failed
    else Unknown
  }

  /** The parts of `data.billing` the handlers read. */
  datatype Product = Product(externalId: Option<string>)
  datatype Metadata = Metadata(externalId: Option<string>)
  datatype Customer = Customer(metadata: Option<Metadata>)
  datatype Billing = Billing(customer: Customer, products: seq<Product>)

  const ProductPrefix: string := "prod-"

  /** A JavaScript string that is present and not empty. */
  predicate Truthy(s: Option<string>) { s.Some? && s.value != "" }

  /** `customer.metadata?.externalId`. */
  function MetadataExternalId(b: Billing): Option<string>
  {
    match b.customer.metadata
    case None => None
    case Some(m) => m.externalId
  }

  /** `s.replace(pat, "")` with a string pattern: drops the first occurrence of `pat`. */
  function RemoveFirst(s: string, pat: string): (r: string)
    ensures pat != "" && pat <= s ==> r == s[|pat|..] && s == pat + r
    ensures |r| == |s| || |r| == |s| - |pat|
  {
    if pat == "" || |s| < |pat| then s
    else if pat <= s then assert s == pat + s[|pat|..]; s[|pat|..]
    else [s[0]] + RemoveFirst(s[1..], pat)
  }

  /**
   * The professional id of a `billing.paid` event: the customer metadata's
   * `externalId` when it is a non-empty string, otherwise the first
   * product's `externalId` without its `prod-` prefix; an empty id counts as
   * none.
   */
  function ResolveProfessionalId(b: Billing): (r: Option<ProfessionalId>)
    ensures r.Some? ==> r.value != ""
    ensures Truthy(MetadataExternalId(b)) ==> r == MetadataExternalId(b)
    ensures !Truthy(MetadataExternalId(b)) && r.Some? ==>
      |b.products| > 0 && b.products[0].externalId == Some(ProductPrefix + r.value)
    ensures !Truthy(MetadataExternalId(b)) && |b.products| > 0 && b.products[0].externalId.Some? ==>
      var e := b.products[0].externalId.value;
      ProductPrefix <= e && |e| > |ProductPrefix| ==> r == Some(e[|ProductPrefix|..])
  {
    var primary := MetadataExternalId(b);
    if !Truthy(primary) && |b.products| > 0 && Truthy(b.products[0].externalId)
       && ProductPrefix <= b.products[0].externalId.value
    then
      var e := b.products[0].externalId.value;
      var stripped := RemoveFirst(e, ProductPrefix);
      if stripped != "" then Some(stripped) else None
    else if Truthy(primary) then primary
    else None
  }

  /**
   * The fallback undoes the billing product's id: a payload without a
   * metadata id whose first product is `prod-<id>` resolves to `<id>`.
   */
  lemma ProductIdRoundTrip(b: Billing, id: ProfessionalId)
    requires id != "" && !Truthy(MetadataExternalId(b))
    requires |b.products| > 0 && b.products[0].externalId == Some(ProductPrefix + id)
    ensures ResolveProfessionalId(b) == Some(id)
  {
    var e := ProductPrefix + id;
    assert ProductPrefix <= e && e[|ProductPrefix|..] == id;
  }

  /**
   * Failure points of the handlers: a database statement that returns an
   * error, and the notification call that rejects.
   */
  datatype WebhookFaults = WebhookFaults(
    createdUpdateFails: bool,
    lookupFails: bool,
    premiumFails: bool,
    deactivateFails: bool,
    activateFails: bool,
    notifyFails: bool,
    cancelRowsFails: bool,
    demoteFails: bool)

  /** `Threw`: the handler threw, and the route answers 500. */
  datatype Outcome = Completed | Threw

  /**
   * `handleBillingCreated`: every subscription of the metadata's professional
   * becomes pending. A missing metadata object throws before the update; a
   * missing `externalId` is a filter that matches no row.
   */
  function ApplyCreated(db: Db, b: Billing, f: WebhookFaults): (r: (Db, Outcome))
    ensures r.0.professionals == db.professionals && r.0.nextId == db.nextId
    ensures |r.0.subscriptions| == |db.subscriptions|
    ensures r.1 == Completed <==> b.customer.metadata.Some? && !f.createdUpdateFails
  {
    match b.customer.metadata
    case None => (db, Threw)
    case Some(m) =>
      if f.createdUpdateFails then (db, Threw)
      else match m.externalId
        case None => (db, Completed)
        case Some(pid) =>
          (db.(subscriptions := UpdateRows(db.subscriptions, StatusOfProfessional(pid, Pending))), Completed)
  }

  /**
   * `handleBillingPaid`: resolve the professional, check the row exists,
   * take the latest pending subscription, promote the professional, make
   * the professional's other active subscriptions inactive (an error there
   * is only logged), activate the chosen subscription, then notify.
   * The notification reads `customer.metadata.name`, so without metadata it
   * throws after the tables were written.
   */
  function ApplyPaid(db: Db, b: Billing, now: int, f: WebhookFaults): (r: (Db, Outcome))
    ensures r.0.nextId == db.nextId && |r.0.subscriptions| == |db.subscriptions|
    ensures r.0.professionals.Keys == db.professionals.Keys
    ensures r.1 == Completed ==> b.customer.metadata.Some? && ResolveProfessionalId(b).Some?
  {
    match ResolveProfessionalId(b)
    case None => (db, Threw)
    case Some(pid) =>
      if f.lookupFails || pid !in db.professionals then (db, Threw)
      else match LatestPending(db.subscriptions, pid)
        case None => (db, Threw)
        case Some(chosen) =>
          if f.premiumFails then (db, Threw)
          else (PaidWrites(db, pid, chosen.id, now, f),
                if f.activateFails || b.customer.metadata.None? || f.notifyFails then Threw else Completed)
  }

  /**
   * The three writes of `handleBillingPaid` once the professional and the
   * chosen pending row are known: promote, deactivate the others (skipped
   * when that update fails), activate the chosen row (skipped when that
   * update fails).
   */
  function PaidWrites(db: Db, pid: ProfessionalId, chosenId: SubscriptionId, now: int, f: WebhookFaults): (r: Db)
    ensures r.nextId == db.nextId && |r.subscriptions| == |db.subscriptions|
    ensures r.professionals.Keys == db.professionals.Keys
  {
    var promoted := db.(professionals := SetTier(db.professionals, pid, Premium));
    var cleaned :=
      if f.deactivateFails then promoted
      else promoted.(subscriptions := UpdateRows(promoted.subscriptions, DeactivateOthers(pid, chosenId)));
    if f.activateFails then cleaned
    else cleaned.(subscriptions := UpdateRows(cleaned.subscriptions, StatusById(chosenId, Active, now)))
  }

  /**
   * `handleBillingCanceled`: every subscription of the professional becomes
   * cancelled and the professional free. Neither update's error is checked.
   */
  function ApplyCanceled(db: Db, b: Billing, f: WebhookFaults): (r: (Db, Outcome))
    ensures r.0.nextId == db.nextId && |r.0.subscriptions| == |db.subscriptions|
    ensures r.0.professionals.Keys == db.professionals.Keys
    ensures r.1 == Completed <==> b.customer.metadata.Some?
  {
    match b.customer.metadata
    case None => (db, Threw)
    case Some(m) =>
      match m.externalId
      case None => (db, Completed)
      case Some(pid) =>
        var rows := if f.cancelRowsFails then db.subscriptions else UpdateRows(db.subscriptions, StatusOfProfessional(pid, Cancelled));
        var profs := if f.demoteFails then db.professionals else SetTier(db.professionals, pid, Free);
        (db.(subscriptions := rows, professionals := profs), Completed)
  }

  /**
   * `handleBillingFailed`: every subscription of the professional becomes
   * cancelled; `subscription_status` is not touched. The update's error is
   * not checked.
   */
  function ApplyFailed(db: Db, b: Billing, f: WebhookFaults): (r: (Db, Outcome))
    ensures r.0.professionals == db.professionals && r.0.nextId == db.nextId
    ensures |r.0.subscriptions| == |db.subscriptions|
    ensures r.1 == Completed <==> b.customer.metadata.Some?
  {
    match b.customer.metadata
    case None => (db, Threw)
    case Some(m) =>
      match m.externalId
      case None => (db, Completed)
      case Some(pid) =>
        var rows := if f.cancelRowsFails then db.subscriptions else UpdateRows(db.subscriptions, StatusOfProfessional(pid, Cancelled));
        (db.(subscriptions := rows), Completed)
  }

  /** The `webhookSecret` query parameter is present, non-empty and equal to the configured secret. */
  predicate Authorized(secret: Option<string>, configured: Option<string>)
  {
    Truthy(secret) && configured.Some? && secret.value == configured.value
  }

  /** The route's `POST`: the tables after the request and the HTTP status. */
  function ApplyWebhook(db: Db, secret: Option<string>, configured: Option<string>, event: string,
                        b: Billing, now: int, f: WebhookFaults): (r: (Db, int))
    ensures r.1 in {200, 401, 500}
  {
    if !Authorized(secret, configured) then (db, 401)
    else
      var handled :=
        match ParseEvent(event)
        case Created => ApplyCreated(db, b, f)
        case Paid => ApplyPaid(db, b, now, f)
        case Canceled => ApplyCanceled(db, b, f)
        case Failed => ApplyFailed(db, b, f)
        case Unknown => (db, Completed);
      (handled.0, if handled.1 == Completed then 200 else 500)
  }

  // ---------------------------------------------------------------------
  // Properties
  // ---------------------------------------------------------------------

  /** A missing or wrong secret is answered 401 and neither table changes. */
  lemma UnauthorizedChangesNothing(db: Db, secret: Option<string>, configured: Option<string>, event: string,
                                   b: Billing, now: int, f: WebhookFaults)
    requires secret.None? || secret == Some("") || secret != configured
    ensures ApplyWebhook(db, secret, configured, event, b, now, f) == (db, 401)
  {
  }

  /**
   * An authorised request runs the handler its event names: the tables end
   * as the handler leaves them, including the writes made before a throw,
   * and the answer is 500 exactly when the handler threw, 200 otherwise.
   */
  lemma AuthorizedRunsHandler(db: Db, secret: Option<string>, configured: Option<string>, event: string,
                              b: Billing, now: int, f: WebhookFaults)
    requires Authorized(secret, configured)
    ensures var r := ApplyWebhook(db, secret, configured, event, b, now, f);
      r.1 != 401 && (r.1 == 500 || r.1 == 200)
    ensures var r := ApplyWebhook(db, secret, configured, event, b, now, f);
      event == "billing.created" ==> r.0 == ApplyCreated(db, b, f).0 && (r.1 == 500 <==> ApplyCreated(db, b, f).1 == Threw)
    ensures var r := ApplyWebhook(db, secret, configured, event, b, now, f);
      event == "billing.paid" ==> r.0 == ApplyPaid(db, b, now, f).0 && (r.1 == 500 <==> ApplyPaid(db, b, now, f).1 == Threw)
    ensures var r := ApplyWebhook(db, secret, configured, event, b, now, f);
      event == "billing.canceled" ==> r.0 == ApplyCanceled(db, b, f).0 && (r.1 == 500 <==> ApplyCanceled(db, b, f).1 == Threw)
    ensures var r := ApplyWebhook(db, secret, configured, event, b, now, f);
      event == "billing.failed" ==> r.0 == ApplyFailed(db, b, f).0 && (r.1 == 500 <==> ApplyFailed(db, b, f).1 == Threw)
  {
  }

  /** A `billing.paid` whose professional id cannot be resolved is answered 500 and writes nothing. */
  lemma UnresolvedPaidAnswers500(db: Db, secret: Option<string>, configured: Option<string>, b: Billing, now: int,
                                 f: WebhookFaults)
    requires Authorized(secret, configured) && ResolveProfessionalId(b).None?
    ensures ApplyWebhook(db, secret, configured, "billing.paid", b, now, f) == (db, 500)
  {
    PaidEarlyFailureWritesNothing(db, b, now, f);
  }

  /**
   * A `billing.created`, `billing.canceled` or `billing.failed` whose customer
   * carries no metadata is answered 500 and writes nothing.
   */
  lemma MissingMetadataAnswers500(db: Db, secret: Option<string>, configured: Option<string>, event: string,
                                  b: Billing, now: int, f: WebhookFaults)
    requires Authorized(secret, configured) && b.customer.metadata.None?
    requires event in {"billing.created", "billing.canceled", "billing.failed"}
    ensures ApplyWebhook(db, secret, configured, event, b, now, f) == (db, 500)
  {
  }

  /** An event name the route does not handle is acknowledged and ignored. */
  lemma UnknownEventIgnored(db: Db, secret: Option<string>, event: string, b: Billing, now: int, f: WebhookFaults)
    requires Truthy(secret)
    requires event !in {"billing.created", "billing.paid", "billing.canceled", "billing.failed"}
    ensures ApplyWebhook(db, secret, secret, event, b, now, f) == (db, 200)
  {
  }

  /**
   * `billing.paid` writes nothing and throws when the id cannot be resolved,
   * the professional is missing, a lookup fails, there is no pending
   * subscription, or the promotion fails.
   */
  lemma PaidEarlyFailureWritesNothing(db: Db, b: Billing, now: int, f: WebhookFaults)
    requires || ResolveProfessionalId(b).None?
             || (ResolveProfessionalId(b).Some? &&
                 var pid := ResolveProfessionalId(b).value;
                 pid !in db.professionals || f.lookupFails || f.premiumFails || LatestPending(db.subscriptions, pid).None?)
    ensures ApplyPaid(db, b, now, f) == (db, Threw)
  {
  }

  /** The write path of `billing.paid`: the case where the professional and a pending subscription were found. */
  predicate PaidProceeds(db: Db, b: Billing, f: WebhookFaults, pid: ProfessionalId, chosen: Subscription)
  {
    && ResolveProfessionalId(b) == Some(pid)
    && pid in db.professionals
    && !f.lookupFails
    && !f.premiumFails
    && LatestPending(db.subscriptions, pid) == Some(chosen)
  }

  /** What `billing.paid` does to one subscription row, once the chosen row is known. */
  function PaidRow(row: Subscription, pid: ProfessionalId, chosenId: SubscriptionId, now: int, f: WebhookFaults): Subscription
  {
    if row.id == chosenId then
      (if f.activateFails then row else row.(status := Active, updatedAt := now))
    else if row.professionalId == pid && row.status == Active && !f.deactivateFails then
      row.(status := Inactive)
    else row
  }

  /**
   * What `billing.paid` writes: the professional becomes premium; the
   * professional's formerly active rows other than the chosen one become
   * inactive unless that step failed; the chosen row becomes active (with
   * `updated_at`) unless that step failed; every other row of every
   * professional is unchanged. The handler completes exactly when the
   * activation and the notification both succeed and metadata was present.
   */
  lemma PaidEffect(db: Db, b: Billing, now: int, f: WebhookFaults, pid: ProfessionalId, chosen: Subscription)
    requires PaidProceeds(db, b, f, pid, chosen)
    ensures ApplyPaid(db, b, now, f).0.professionals == db.professionals[pid := db.professionals[pid].(tier := Premium)]
    ensures ApplyPaid(db, b, now, f).0.nextId == db.nextId
    ensures |ApplyPaid(db, b, now, f).0.subscriptions| == |db.subscriptions|
    ensures forall i :: 0 <= i < |db.subscriptions| ==>
      ApplyPaid(db, b, now, f).0.subscriptions[i] == PaidRow(db.subscriptions[i], pid, chosen.id, now, f)
    ensures ApplyPaid(db, b, now, f).1 == Completed <==> !f.activateFails && !f.notifyFails && b.customer.metadata.Some?
  {
    assert ApplyPaid(db, b, now, f).0 == PaidWrites(db, pid, chosen.id, now, f);
    PaidWritesEffect(db, pid, chosen.id, now, f);
  }

  /** Row by row, `PaidWrites` is `PaidRow`; the professional becomes premium. */
  lemma PaidWritesEffect(db: Db, pid: ProfessionalId, chosenId: SubscriptionId, now: int, f: WebhookFaults)
    requires pid in db.professionals
    ensures PaidWrites(db, pid, chosenId, now, f).professionals == db.professionals[pid := db.professionals[pid].(tier := Premium)]
    ensures PaidWrites(db, pid, chosenId, now, f).nextId == db.nextId
    ensures |PaidWrites(db, pid, chosenId, now, f).subscriptions| == |db.subscriptions|
    ensures forall i :: 0 <= i < |db.subscriptions| ==>
      PaidWrites(db, pid, chosenId, now, f).subscriptions[i] == PaidRow(db.subscriptions[i], pid, chosenId, now, f)
  {
    var rows := db.subscriptions;
    var cleaned := if f.deactivateFails then rows else UpdateRows(rows, DeactivateOthers(pid, chosenId));
    var after := if f.activateFails then cleaned else UpdateRows(cleaned, StatusById(chosenId, Active, now));
    assert PaidWrites(db, pid, chosenId, now, f).subscriptions == after;
    forall i | 0 <= i < |rows|
      ensures after[i] == PaidRow(rows[i], pid, chosenId, now, f)
    {
      assert cleaned[i] == if f.deactivateFails then rows[i] else ApplyToRow(DeactivateOthers(pid, chosenId), rows[i]);
    }
  }

  /**
   * After a successful `billing.paid` whose clean-up step did not fail, the
   * chosen row, the latest pending one, is the professional's only active
   * subscription and the professional is premium.
   */
  lemma PaidLeavesSingleActive(db: Db, b: Billing, now: int, f: WebhookFaults, pid: ProfessionalId, chosen: Subscription)
    requires WellFormed(db) && PaidProceeds(db, b, f, pid, chosen)
    requires !f.deactivateFails && !f.activateFails
    ensures var after := ApplyPaid(db, b, now, f).0;
      && after.professionals[pid].tier == Premium
      && (exists i :: 0 <= i < |after.subscriptions| && after.subscriptions[i].id == chosen.id)
      && forall i :: 0 <= i < |after.subscriptions| && after.subscriptions[i].professionalId == pid ==>
           (after.subscriptions[i].status == Active <==> after.subscriptions[i].id == chosen.id)
  {
    PaidEffect(db, b, now, f, pid, chosen);
    var k :| 0 <= k < |db.subscriptions| && db.subscriptions[k] == chosen;
    PaidRowsSingleActive(db.subscriptions, ApplyPaid(db, b, now, f).0.subscriptions, pid, chosen.id, now, f, k);
  }

  /** `PaidLeavesSingleActive` on the rows alone, once each row is known to be its `PaidRow`. */
  lemma PaidRowsSingleActive(rows: seq<Subscription>, after: seq<Subscription>, pid: ProfessionalId, chosenId: SubscriptionId,
                             now: int, f: WebhookFaults, k: int)
    requires UniqueIds(rows) && |after| == |rows| && !f.deactivateFails && !f.activateFails
    requires 0 <= k < |rows| && rows[k].id == chosenId
    requires forall i :: 0 <= i < |rows| ==> after[i] == PaidRow(rows[i], pid, chosenId, now, f)
    ensures after[k].id == chosenId
    ensures forall i :: 0 <= i < |after| && after[i].professionalId == pid ==>
              (after[i].status == Active <==> after[i].id == chosenId)
  {
    assert after[k] == PaidRow(rows[k], pid, chosenId, now, f);
    forall i | 0 <= i < |after| && after[i].professionalId == pid
      ensures after[i].status == Active <==> after[i].id == chosenId
    {
      assert after[i] == PaidRow(rows[i], pid, chosenId, now, f);
    }
  }

  /**
   * `billing.paid` never makes a professional hold two active subscriptions
   * when its clean-up step succeeds, whatever else fails.
   */
  lemma PaidKeepsAtMostOneActive(db: Db, b: Billing, now: int, f: WebhookFaults)
    requires WellFormed(db) && AtMostOneActive(db.subscriptions)
    requires !f.deactivateFails
    ensures AtMostOneActive(ApplyPaid(db, b, now, f).0.subscriptions)
  {
    var r := ResolveProfessionalId(b);
    if r.Some? && r.value in db.professionals && !f.lookupFails && !f.premiumFails
       && LatestPending(db.subscriptions, r.value).Some? {
      var pid := r.value;
      var chosen := LatestPending(db.subscriptions, pid).value;
      assert ApplyPaid(db, b, now, f).0 == PaidWrites(db, pid, chosen.id, now, f);
      var k :| 0 <= k < |db.subscriptions| && db.subscriptions[k] == chosen;
      PaidWritesKeepAtMostOneActive(db, pid, chosen.id, now, f);
    } else {
      PaidEarlyFailureWritesNothing(db, b, now, f);
    }
  }

  lemma PaidWritesKeepAtMostOneActive(db: Db, pid: ProfessionalId, chosenId: SubscriptionId, now: int, f: WebhookFaults)
    requires WellFormed(db) && AtMostOneActive(db.subscriptions) && pid in db.professionals
    requires !f.deactivateFails
    requires exists k :: 0 <= k < |db.subscriptions| && db.subscriptions[k].id == chosenId && db.subscriptions[k].professionalId == pid
    ensures AtMostOneActive(PaidWrites(db, pid, chosenId, now, f).subscriptions)
  {
    PaidWritesEffect(db, pid, chosenId, now, f);
    var k :| 0 <= k < |db.subscriptions| && db.subscriptions[k].id == chosenId && db.subscriptions[k].professionalId == pid;
    PaidRowsKeepAtMostOne(db.subscriptions, PaidWrites(db, pid, chosenId, now, f).subscriptions, pid, chosenId, now, f, k);
  }

  /** `PaidWritesKeepAtMostOneActive` on the rows alone, once each row is known to be its `PaidRow`. */
  lemma PaidRowsKeepAtMostOne(rows: seq<Subscription>, after: seq<Subscription>, pid: ProfessionalId, chosenId: SubscriptionId,
                              now: int, f: WebhookFaults, k: int)
    requires UniqueIds(rows) && AtMostOneActive(rows) && |after| == |rows| && !f.deactivateFails
    requires 0 <= k < |rows| && rows[k].id == chosenId && rows[k].professionalId == pid
    requires forall i :: 0 <= i < |rows| ==> after[i] == PaidRow(rows[i], pid, chosenId, now, f)
    ensures AtMostOneActive(after)
  {
    forall i | 0 <= i < |rows|
      ensures after[i].id == rows[i].id && after[i].professionalId == rows[i].professionalId
      ensures after[i].status == Active && rows[i].professionalId == pid ==> rows[i].id == chosenId
      ensures rows[i].professionalId != pid ==> after[i] == rows[i]
    {
      assert after[i] == PaidRow(rows[i], pid, chosenId, now, f);
      if rows[i].id == chosenId {
        assert i == k;
      }
    }
    SingleOwnerChangeKeepsAtMostOne(rows, after, pid, chosenId);
  }

  /**
   * If only `pid`'s rows change, keys stay, and afterwards every active row of
   * `pid` has id `keep`, then no professional holds two active rows.
   */
  lemma SingleOwnerChangeKeepsAtMostOne(rows: seq<Subscription>, after: seq<Subscription>, pid: ProfessionalId, keep: SubscriptionId)
    requires UniqueIds(rows) && AtMostOneActive(rows) && |after| == |rows|
    requires forall i :: 0 <= i < |rows| ==> after[i].id == rows[i].id && after[i].professionalId == rows[i].professionalId
    requires forall i :: 0 <= i < |rows| && after[i].status == Active && rows[i].professionalId == pid ==> rows[i].id == keep
    requires forall i :: 0 <= i < |rows| && rows[i].professionalId != pid ==> after[i] == rows[i]
    ensures AtMostOneActive(after)
  {
  }

  /**
   * A second delivery of the same `billing.paid` event after a successful
   * one finds no pending subscription, throws and writes nothing, provided
   * the professional had a single pending subscription.
   */
  lemma DuplicatePaidRejected(db: Db, b: Billing, now: int, f: WebhookFaults, pid: ProfessionalId, chosen: Subscription,
                              now2: int, f2: WebhookFaults)
    requires WellFormed(db) && PaidProceeds(db, b, f, pid, chosen) && !f.activateFails
    requires forall i :: (0 <= i < |db.subscriptions| && db.subscriptions[i].professionalId == pid &&
                          db.subscriptions[i].status == Pending) ==> db.subscriptions[i].id == chosen.id
    ensures var after := ApplyPaid(db, b, now, f).0;
      ApplyPaid(after, b, now2, f2) == (after, Threw)
  {
    var after := ApplyPaid(db, b, now, f).0;
    PaidEffect(db, b, now, f, pid, chosen);
    assert LatestPending(after.subscriptions, pid).None?;
  }

  /**
   * The same redelivery does not fail when the professional had a second
   * pending subscription: that one is then the latest pending, and a
   * fault-free delivery activates it.
   */
  lemma DuplicatePaidActivatesOtherPending(db: Db, b: Billing, now: int, f: WebhookFaults, pid: ProfessionalId, chosen: Subscription,
                                           k: nat, now2: int)
    requires WellFormed(db) && PaidProceeds(db, b, f, pid, chosen) && !f.activateFails
    requires k < |db.subscriptions| && db.subscriptions[k].professionalId == pid
    requires db.subscriptions[k].status == Pending && db.subscriptions[k].id != chosen.id
    ensures var after := ApplyPaid(db, b, now, f).0;
      && LatestPending(after.subscriptions, pid).Some?
      && (ApplyPaid(after, b, now2, WebhookFaults(false, false, false, false, false, false, false, false)).1 == Completed
          <==> b.customer.metadata.Some?)
  {
    var after := ApplyPaid(db, b, now, f).0;
    PaidEffect(db, b, now, f, pid, chosen);
    assert after.subscriptions[k].professionalId == pid && after.subscriptions[k].status == Pending;
    assert pid in after.professionals;
  }

  /** `billing.created` makes every subscription of the metadata's professional pending and nothing else. */
  lemma CreatedMarksPending(db: Db, b: Billing, f: WebhookFaults, pid: ProfessionalId)
    requires WellFormed(db) && b.customer.metadata == Some(Metadata(Some(pid))) && !f.createdUpdateFails
    ensures var (after, outcome) := ApplyCreated(db, b, f);
      && outcome == Completed
      && after.professionals == db.professionals
      && |after.subscriptions| == |db.subscriptions|
      && forall i :: 0 <= i < |db.subscriptions| ==>
           after.subscriptions[i] == if db.subscriptions[i].professionalId == pid
                                     then db.subscriptions[i].(status := Pending) else db.subscriptions[i]
  {
  }

  /**
   * Cancel versus fail: both complete whatever their updates return and,
   * when the row update succeeds, leave every subscription of the
   * professional cancelled (only its status changes) and none active, and
   * every other professional's rows as they were; when it fails, no row
   * changes. Only `billing.canceled` moves the professional to free, and
   * `billing.failed` leaves `subscription_status` as it was.
   */
  lemma CancelVersusFail(db: Db, b: Billing, f: WebhookFaults, pid: ProfessionalId)
    requires WellFormed(db) && b.customer.metadata == Some(Metadata(Some(pid)))
    ensures ApplyCanceled(db, b, f).1 == Completed && ApplyFailed(db, b, f).1 == Completed
    ensures ApplyCanceled(db, b, f).0.subscriptions == ApplyFailed(db, b, f).0.subscriptions
    ensures ApplyFailed(db, b, f).0.professionals == db.professionals
    ensures !f.demoteFails && pid in db.professionals ==> ApplyCanceled(db, b, f).0.professionals[pid].tier == Free
    ensures forall q :: q in db.professionals && q != pid ==> ApplyCanceled(db, b, f).0.professionals[q] == db.professionals[q]
    ensures !f.cancelRowsFails ==>
      var rows := ApplyFailed(db, b, f).0.subscriptions;
      && !HasActive(rows, pid)
      && forall i :: 0 <= i < |rows| && rows[i].professionalId == pid ==> rows[i].status == Cancelled
    ensures !f.cancelRowsFails ==>
      var rows := ApplyFailed(db, b, f).0.subscriptions;
      && |rows| == |db.subscriptions|
      && forall i :: 0 <= i < |db.subscriptions| ==>
           rows[i] == if db.subscriptions[i].professionalId == pid
                      then db.subscriptions[i].(status := Cancelled) else db.subscriptions[i]
    ensures f.cancelRowsFails ==> ApplyFailed(db, b, f).0.subscriptions == db.subscriptions
  {
  }

  /** Every handler leaves a professional's table row set alone except the one it resolved. */
  lemma HandlersTouchOneProfessional(db: Db, secret: Option<string>, configured: Option<string>, event: string,
                                     b: Billing, now: int, f: WebhookFaults)
    requires WellFormed(db)
    ensures var after := ApplyWebhook(db, secret, configured, event, b, now, f).0;
      && after.professionals.Keys == db.professionals.Keys
      && forall q :: q in db.professionals && after.professionals[q] != db.professionals[q] ==>
           ParseEvent(event) in {Paid, Canceled} && (ResolveProfessionalId(b) == Some(q) || MetadataExternalId(b) == Some(q))
  {
  }

  /**
   * Every request keeps subscription ids unique and below the id counter,
   * hands out no id and neither adds nor removes professionals.
   */
  lemma WebhookKeepsWellFormed(db: Db, secret: Option<string>, configured: Option<string>, event: string,
                               b: Billing, now: int, f: WebhookFaults)
    requires WellFormed(db)
    ensures var after := ApplyWebhook(db, secret, configured, event, b, now, f).0;
      WellFormed(after) && after.nextId == db.nextId && after.professionals.Keys == db.professionals.Keys
  {
    if Authorized(secret, configured) {
      match ParseEvent(event)
      case Created =>
        if b.customer.metadata.Some? && b.customer.metadata.value.externalId.Some? {
          UpdateKeepsKeys(db, StatusOfProfessional(b.customer.metadata.value.externalId.value, Pending));
        }
      case Paid =>
        var r := ResolveProfessionalId(b);
        if r.Some? && r.value in db.professionals && !f.lookupFails && !f.premiumFails
           && LatestPending(db.subscriptions, r.value).Some? {
          var pid := r.value;
          var chosen := LatestPending(db.subscriptions, pid).value;
          assert ApplyPaid(db, b, now, f).0 == PaidWrites(db, pid, chosen.id, now, f);
          var promoted := db.(professionals := SetTier(db.professionals, pid, Premium));
          UpdateKeepsKeys(promoted, DeactivateOthers(pid, chosen.id));
          var cleaned :=
            if f.deactivateFails then promoted
            else promoted.(subscriptions := UpdateRows(promoted.subscriptions, DeactivateOthers(pid, chosen.id)));
          UpdateKeepsKeys(cleaned, StatusById(chosen.id, Active, now));
        }
      case Canceled =>
        if b.customer.metadata.Some? && b.customer.metadata.value.externalId.Some? {
          UpdateKeepsKeys(db, StatusOfProfessional(b.customer.metadata.value.externalId.value, Cancelled));
        }
      case Failed =>
        if b.customer.metadata.Some? && b.customer.metadata.value.externalId.Some? {
          UpdateKeepsKeys(db, StatusOfProfessional(b.customer.metadata.value.externalId.value, Cancelled));
        }
      case Unknown =>
    }
  }

  /**
   * Every handler keeps each professional to at most one active
   * subscription, provided `billing.paid`'s clean-up update succeeds.
   */
  lemma WebhookKeepsOneActive(db: Db, secret: Option<string>, configured: Option<string>, event: string,
                              b: Billing, now: int, f: WebhookFaults)
    requires WellFormed(db) && AtMostOneActive(db.subscriptions) && !f.deactivateFails
    ensures AtMostOneActive(ApplyWebhook(db, secret, configured, event, b, now, f).0.subscriptions)
  {
    if Authorized(secret, configured) {
      match ParseEvent(event)
      case Created =>
        if b.customer.metadata.Some? && b.customer.metadata.value.externalId.Some? {
          StatusOfProfessionalKeepsOneActive(db.subscriptions, b.customer.metadata.value.externalId.value, Pending);
        }
      case Paid =>
        PaidKeepsAtMostOneActive(db, b, now, f);
      case Canceled =>
        if b.customer.metadata.Some? && b.customer.metadata.value.externalId.Some? {
          StatusOfProfessionalKeepsOneActive(db.subscriptions, b.customer.metadata.value.externalId.value, Cancelled);
        }
      case Failed =>
        if b.customer.metadata.Some? && b.customer.metadata.value.externalId.Some? {
          StatusOfProfessionalKeepsOneActive(db.subscriptions, b.customer.metadata.value.externalId.value, Cancelled);
        }
      case Unknown =>
    }
  }

  /** Moving all of one professional's rows to a status other than active creates no active row. */
  lemma StatusOfProfessionalKeepsOneActive(rows: seq<Subscription>, pid: ProfessionalId, status: Status)
    requires AtMostOneActive(rows) && status != Active
    ensures AtMostOneActive(UpdateRows(rows, StatusOfProfessional(pid, status)))
  {
    var after := UpdateRows(rows, StatusOfProfessional(pid, status));
    forall i | 0 <= i < |after| && after[i].status == Active
      ensures after[i] == rows[i]
    {
    }
  }

  /**
   * When the clean-up update of `billing.paid` fails, its error is only
   * logged and the chosen row is still activated, so a professional that
   * already had an active subscription ends with two.
   */
  lemma PaidCleanupFailureLeavesTwoActive()
    ensures var db := Db(map["p" := Professional(Free, None)],
                         [Subscription(0, "p", Active, 0, 10, 0, 0), Subscription(1, "p", Pending, 5, 15, 5, 5)], 2);
      var b := Billing(Customer(Some(Metadata(Some("p")))), []);
      var f := WebhookFaults(false, false, false, true, false, false, false, false);
      var after := ApplyWebhook(db, Some("s"), Some("s"), "billing.paid", b, 20, f);
      && WellFormed(db) && AtMostOneActive(db.subscriptions)
      && after.1 == 200
      && after.0.subscriptions[0].status == Active && after.0.subscriptions[1].status == Active
      && !AtMostOneActive(after.0.subscriptions)
  {
    var db := Db(map["p" := Professional(Free, None)],
                 [Subscription(0, "p", Active, 0, 10, 0, 0), Subscription(1, "p", Pending, 5, 15, 5, 5)], 2);
    var b := Billing(Customer(Some(Metadata(Some("p")))), []);
    var f := WebhookFaults(false, false, false, true, false, false, false, false);
    assert ResolveProfessionalId(b) == Some("p");
    assert LatestPending(db.subscriptions, "p") == Some(db.subscriptions[1]);
    PaidWritesEffect(db, "p", 1, 20, f);
  }
}
