/**
 * The two tables as the route handlers change them, one statement at a
 * time. Each handler is proved to leave the tables, and to answer, as the
 * corresponding function of the `Webhook`, `Creation` and `Sweep` modules
 * says, so the properties proved there hold of these methods.
 */
module Store {
  import opened Common
  import opened Tables
  import Webhook
  import Creation
  import Sweep

  class Store {
    var professionals: map<ProfessionalId, Professional>
    var subscriptions: seq<Subscription>
    var nextId: SubscriptionId

    /** The current contents of both tables. */
    function Tables(): Db
      reads this
    {
      Db(professionals, subscriptions, nextId)
    }

    constructor(db: Db)
      ensures Tables() == db
    {
      professionals := db.professionals;
      subscriptions := db.subscriptions;
      nextId := db.nextId;
    }

    /** `handleBillingCreated`. */
    method HandleBillingCreated(b: Webhook.Billing, f: Webhook.WebhookFaults) returns (outcome: Webhook.Outcome)
      modifies this
      ensures (Tables(), outcome) == Webhook.ApplyCreated(old(Tables()), b, f)
    {
      if b.customer.metadata.None? {
        return Webhook.Threw;
      }
      if f.createdUpdateFails {
        return Webhook.Threw;
      }
      var pid := b.customer.metadata.value.externalId;
      if pid.Some? {
        subscriptions := UpdateRows(subscriptions, StatusOfProfessional(pid.value, Pending));
      }
      return Webhook.Completed;
    }

    /** `handleBillingPaid`. */
    method HandleBillingPaid(b: Webhook.Billing, now: int, f: Webhook.WebhookFaults) returns (outcome: Webhook.Outcome)
      modifies this
      ensures (Tables(), outcome) == Webhook.ApplyPaid(old(Tables()), b, now, f)
    {
      var resolved := Webhook.ResolveProfessionalId(b);
      if resolved.None? {
        return Webhook.Threw;
      }
      var pid := resolved.value;
      if f.lookupFails || pid !in professionals {
        return Webhook.Threw;
      }
      var latest := LatestPending(subscriptions, pid);
      if latest.None? {
        return Webhook.Threw;
      }
      var chosen := latest.value;
      if f.premiumFails {
        return Webhook.Threw;
      }
      professionals := SetTier(professionals, pid, Premium);
      if !f.deactivateFails {
        subscriptions := UpdateRows(subscriptions, DeactivateOthers(pid, chosen.id));
      }
      if f.activateFails {
        return Webhook.Threw;
      }
      subscriptions := UpdateRows(subscriptions, StatusById(chosen.id, Active, now));
      if b.customer.metadata.None? || f.notifyFails {
        return Webhook.Threw;
      }
      return Webhook.Completed;
    }

    /** `handleBillingCanceled`. */
    method HandleBillingCanceled(b: Webhook.Billing, f: Webhook.WebhookFaults) returns (outcome: Webhook.Outcome)
      modifies this
      ensures (Tables(), outcome) == Webhook.ApplyCanceled(old(Tables()), b, f)
    {
      if b.customer.metadata.None? {
        return Webhook.Threw;
      }
      var pid := b.customer.metadata.value.externalId;
      if pid.Some? {
        if !f.cancelRowsFails {
          subscriptions := UpdateRows(subscriptions, StatusOfProfessional(pid.value, Cancelled));
        }
        if !f.demoteFails {
          professionals := SetTier(professionals, pid.value, Free);
        }
      }
      return Webhook.Completed;
    }

    /** `handleBillingFailed`. */
    method HandleBillingFailed(b: Webhook.Billing, f: Webhook.WebhookFaults) returns (outcome: Webhook.Outcome)
      modifies this
      ensures (Tables(), outcome) == Webhook.ApplyFailed(old(Tables()), b, f)
    {
      if b.customer.metadata.None? {
        return Webhook.Threw;
      }
      var pid := b.customer.metadata.value.externalId;
      if pid.Some? && !f.cancelRowsFails {
        subscriptions := UpdateRows(subscriptions, StatusOfProfessional(pid.value, Cancelled));
      }
      return Webhook.Completed;
    }

    /**
     * The webhook route: check the secret, dispatch on the event name, and
     * answer 200, or 500 when the handler threw. Ids stay unique; at most
     * one active subscription per professional is kept unless the clean-up
     * step of `billing.paid` fails.
     */
    method HandleWebhook(secret: Option<string>, configured: Option<string>, event: string,
                         b: Webhook.Billing, now: int, f: Webhook.WebhookFaults) returns (status: int)
      requires WellFormed(Tables())
      modifies this
      ensures (Tables(), status) == Webhook.ApplyWebhook(old(Tables()), secret, configured, event, b, now, f)
      ensures WellFormed(Tables())
      ensures old(AtMostOneActive(subscriptions)) && !f.deactivateFails ==> AtMostOneActive(subscriptions)
    {
      Webhook.WebhookKeepsWellFormed(Tables(), secret, configured, event, b, now, f);
      if AtMostOneActive(subscriptions) && !f.deactivateFails {
        Webhook.WebhookKeepsOneActive(Tables(), secret, configured, event, b, now, f);
      }
      if !Webhook.Authorized(secret, configured) {
        return 401;
      }
      var outcome := Webhook.Completed;
      match Webhook.ParseEvent(event) {
        case Created => outcome := HandleBillingCreated(b, f);
        case Paid => outcome := HandleBillingPaid(b, now, f);
        case Canceled => outcome := HandleBillingCanceled(b, f);
        case Failed => outcome := HandleBillingFailed(b, f);
        case Unknown =>
      }
      status := if outcome == Webhook.Completed then 200 else 500;
    }

    /**
     * The create-subscription route. A professional without a stored
     * customer id gets one created with a freshly generated CPF.
     */
    method CreateSubscription(userId: Option<string>, email: Option<string>, now: int, cpfBase: seq<int>,
                              gw: Creation.Gateway, f: Creation.CreateFaults)
      returns (response: Creation.CreateResponse, customerRequest: Option<Creation.CustomerRequest>,
               billingRequest: Option<Creation.BillingRequest>)
      requires Creation.IsCpfBase(cpfBase)
      requires WellFormed(Tables())
      modifies this
      ensures Creation.CreateResult(Tables(), response, customerRequest, billingRequest)
              == Creation.ApplyCreate(old(Tables()), userId, email, now, cpfBase, gw, f)
      ensures WellFormed(Tables())
      ensures old(AtMostOneActive(subscriptions)) ==> AtMostOneActive(subscriptions)
    {
      Creation.CreateKeepsWellFormed(Tables(), userId, email, now, cpfBase, gw, f);
      if AtMostOneActive(subscriptions) {
        Creation.CreateKeepsOneActive(Tables(), userId, email, now, cpfBase, gw, f);
      }
      customerRequest := None;
      billingRequest := None;
      if !Webhook.Truthy(userId) || !Webhook.Truthy(email) {
        return Creation.BadRequest, customerRequest, billingRequest;
      }
      var uid := userId.value;
      if f.professionalReadFails || uid !in professionals {
        return Creation.ServerError, customerRequest, billingRequest;
      }
      var customerId: string;
      var taxId := "";
      var stored := professionals[uid].customerId;
      if Webhook.Truthy(stored) {
        customerId := stored.value;
      } else {
        taxId := Creation.GenerateValidCpf(cpfBase);
        customerRequest := Some(Creation.CustomerRequest(email.value, taxId, uid));
        if gw.customerReply.None? {
          return Creation.ServerError, customerRequest, billingRequest;
        }
        customerId := gw.customerReply.value;
        if f.persistFails {
          return Creation.ServerError, customerRequest, billingRequest;
        }
        professionals := SetCustomerId(professionals, uid, customerId);
      }
      billingRequest := Some(Creation.BillingRequest(customerId, Webhook.ProductPrefix + uid, Creation.PremiumPrice,
                                                     email.value, taxId, uid));
      if gw.billingReply.None? || f.checkFails {
        return Creation.ServerError, customerRequest, billingRequest;
      }
      var active := ActiveOf(subscriptions, uid);
      if f.writeFails {
        return Creation.ServerError, customerRequest, billingRequest;
      }
      if |active| == 1 {
        subscriptions := UpdateRows(subscriptions, RenewById(active[0].id, now));
      } else {
        subscriptions := subscriptions + [NewPendingRow(nextId, uid, now)];
        nextId := nextId + 1;
      }
      response := Creation.PaymentUrl(gw.billingReply.value);
    }

    /**
     * The expiration sweep: select the expired active subscriptions, then
     * close each one and demote its professional when no active
     * subscription is left, skipping to the next one on any error.
     */
    method CheckExpiredSubscriptions(now: int, f: Sweep.SweepFaults) returns (response: Sweep.SweepResponse)
      requires WellFormed(Tables())
      modifies this
      ensures (Tables(), response) == Sweep.ApplySweep(old(Tables()), now, f)
      ensures WellFormed(Tables())
      ensures old(AtMostOneActive(subscriptions)) ==> AtMostOneActive(subscriptions)
    {
      Sweep.SweepKeepsWellFormed(Tables(), now, f);
      if AtMostOneActive(subscriptions) {
        Sweep.SweepKeepsOneActive(Tables(), now, f);
      }
      if f.fetchFails {
        return Sweep.SweepError;
      }
      var expired := ExpiredActive(subscriptions, now);
      for i := 0 to |expired|
        invariant Sweep.SweepAll(Tables(), expired[i..], now, f) == Sweep.SweepAll(old(Tables()), expired, now, f)
      {
        ghost var before := Tables();
        assert expired[i..][1..] == expired[i + 1..];
        var row := expired[i];
        if row.id in f.updateFails {
          continue;
        }
        subscriptions := UpdateRows(subscriptions, StatusById(row.id, Inactive, now));
        if row.id in f.recheckFails {
          continue;
        }
        if !HasActive(subscriptions, row.professionalId) && row.id !in f.demoteFails {
          professionals := SetTier(professionals, row.professionalId, Free);
        }
        assert Tables() == Sweep.SweepStep(before, row, now, f);
      }
      response := Sweep.Swept(|expired|);
    }
  }
}
