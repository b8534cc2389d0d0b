/**
 * The create-subscription route (`app/api/create-subscription/route.ts`):
 * it makes sure the professional has a customer at the payment gateway
 * (creating one with a generated test CPF when none is stored), asks the
 * gateway for a one-time PIX billing of R$ 19,99, and then renews the
 * professional's single active subscription or inserts a new pending one.
 *
 * `Math.random` becomes the nine base digits `cpfBase`, the two gateway
 * calls become the replies in `Gateway`, database errors become the flags
 * in `CreateFaults`, and every `new Date()` of one request is the single
 * instant `now`.
 */
module Creation {
  import opened Common
  import opened Text
  import opened Tables
  import RegisterForm
  import Webhook

  // ---------------------------------------------------------------------
  // generateValidCPF
  // ---------------------------------------------------------------------

  /** Nine decimal digits, as drawn by `Math.floor(Math.random() * 10)`. */
  predicate IsCpfBase(ds: seq<int>)
  {
    |ds| == 9 && forall i :: 0 <= i < |ds| ==> 0 <= ds[i] <= 9
  }

  predicate AreDecimalDigits(ds: seq<int>)
  {
    forall i :: 0 <= i < |ds| ==> 0 <= ds[i] <= 9
  }

  /** `ds[0] * top + ds[1] * (top - 1) + ...`, the sum the two check-digit loops compute. */
  function WeightedSum(ds: seq<int>, top: int): int
  {
    if ds == [] then 0
    else WeightedSum(ds[..|ds| - 1], top) + ds[|ds| - 1] * (top - (|ds| - 1))
  }

  /** The generator's rule: `11 - sum % 11`, with 10 and 11 written as 0. */
  function CheckDigit(ds: seq<int>): (d: int)
    ensures 0 <= d <= 9
  {
    var d := 11 - WeightedSum(ds, |ds| + 1) % 11;
    if d > 9 then 0 else d
  }

  /** The usual CPF validator's rule for the same digit: `(sum * 10 % 11) % 10`. */
  function ValidatorDigit(ds: seq<int>): int
  {
    (WeightedSum(ds, |ds| + 1) * 10 % 11) % 10
  }

  /** A CPF passes the validator: eleven digits whose last two are the validator's check digits. */
  predicate IsValidCpf(ds: seq<int>)
  {
    && |ds| == 11
    && AreDecimalDigits(ds)
    && ds[9] == ValidatorDigit(ds[..9])
    && ds[10] == ValidatorDigit(ds[..10])
  }

  /** The nine base digits followed by the two check digits. */
  function CpfDigits(base: seq<int>): (r: seq<int>)
    requires IsCpfBase(base)
    ensures |r| == 11 && r[..9] == base && AreDecimalDigits(r)
  {
    var first := base + [CheckDigit(base)];
    first + [CheckDigit(first)]
  }

  function DigitChar(d: int): (c: char)
    requires 0 <= d <= 9
    ensures IsDigit(c)
  {
    (('0' as int) + d) as char
  }

  /** `cpf.join("")`. */
  function DigitString(ds: seq<int>): (s: string)
    requires AreDecimalDigits(ds)
    ensures |s| == |ds| && AllDigits(s)
  {
    seq(|ds|, i requires 0 <= i < |ds| => DigitChar(ds[i]))
  }

  /** The `ddd.ddd.ddd-dd` layout the generator's regular expression produces. */
  function CpfText(ds: seq<int>): (s: string)
    requires |ds| == 11 && AreDecimalDigits(ds)
    ensures |s| == 14 && s[3] == '.' && s[7] == '.' && s[11] == '-'
  {
    var t := DigitString(ds);
    t[..3] + "." + t[3..6] + "." + t[6..9] + "-" + t[9..]
  }

  /**
   * `generateValidCPF`: append the first check digit (weights 10 down to
   * 2), then the second (weights 11 down to 2), then join and format.
   */
  method GenerateValidCpf(base: seq<int>) returns (cpf: string)
    requires IsCpfBase(base)
    ensures cpf == CpfText(CpfDigits(base))
    ensures |cpf| == 14 && Digits(cpf) == DigitString(CpfDigits(base)) && IsValidCpf(CpfDigits(base))
  {
    GeneratedCpfIsValid(base);
    GeneratedCpfMatchesFormMask(base);
    var digits := base;
    var sum := 0;
    var i := 0;
    while i < 9
      invariant 0 <= i <= 9
      invariant sum == WeightedSum(digits[..i], 10)
    {
      assert digits[..i + 1][..i] == digits[..i];
      sum := sum + digits[i] * (10 - i);
      i := i + 1;
    }
    assert digits[..9] == digits;
    var digit := 11 - sum % 11;
    digits := digits + [if digit > 9 then 0 else digit];
    sum := 0;
    i := 0;
    while i < 10
      invariant 0 <= i <= 10
      invariant sum == WeightedSum(digits[..i], 11)
    {
      assert digits[..i + 1][..i] == digits[..i];
      sum := sum + digits[i] * (11 - i);
      i := i + 1;
    }
    assert digits[..10] == digits;
    digit := 11 - sum % 11;
    digits := digits + [if digit > 9 then 0 else digit];
    assert digits == CpfDigits(base);
    cpf := CpfText(digits);
  }

  /** The generator's check digit is a decimal digit and is the one the validator expects. */
  lemma CheckDigitIsValidatorDigit(ds: seq<int>)
    ensures 0 <= CheckDigit(ds) <= 9
    ensures CheckDigit(ds) == ValidatorDigit(ds)
  {
    var s := WeightedSum(ds, |ds| + 1);
    var q := s / 11;
    var r := s % 11;
    assert s * 10 == 11 * (q * 10) + r * 10;
    assert (s * 10) % 11 == (r * 10) % 11;
  }

  /** Every CPF the generator builds starts with the base digits and passes the validator. */
  lemma GeneratedCpfIsValid(base: seq<int>)
    requires IsCpfBase(base)
    ensures CpfDigits(base)[..9] == base
    ensures IsValidCpf(CpfDigits(base))
  {
    var first := base + [CheckDigit(base)];
    var ds := CpfDigits(base);
    CheckDigitIsValidatorDigit(base);
    CheckDigitIsValidatorDigit(first);
    assert ds[..9] == base;
    assert ds[..10] == first;
  }

  /**
   * The generated text holds exactly the eleven digits, and the
   * registration form's CPF mask leaves it as it is.
   */
  lemma GeneratedCpfMatchesFormMask(base: seq<int>)
    requires IsCpfBase(base)
    ensures |CpfText(CpfDigits(base))| == 14
    ensures Digits(CpfText(CpfDigits(base))) == DigitString(CpfDigits(base))
    ensures RegisterForm.FormatCpf(CpfText(CpfDigits(base))) == CpfText(CpfDigits(base))
  {
    GeneratedCpfIsValid(base);
    var t := DigitString(CpfDigits(base));
    var text := CpfText(CpfDigits(base));
    DigitsOfDigitString(t[..3]);
    DigitsOfDigitString(t[3..6]);
    DigitsOfDigitString(t[6..9]);
    DigitsOfDigitString(t[9..]);
    DigitsAcrossSeparator(t[..3], ".", t[3..6]);
    DigitsAcrossSeparator(t[..3] + "." + t[3..6], ".", t[6..9]);
    DigitsAcrossSeparator(t[..3] + "." + t[3..6] + "." + t[6..9], "-", t[9..]);
    assert t[..3] + t[3..6] + t[6..9] + t[9..] == t;
    assert Digits(text) == t;
    assert t[9..Min(|t|, 11)] == t[9..];
  }

  // ---------------------------------------------------------------------
  // POST /api/create-subscription
  // ---------------------------------------------------------------------

  /** Database statements of the route that can return an error. */
  datatype CreateFaults = CreateFaults(
    professionalReadFails: bool,  // the `.single()` read of the professional
    persistFails: bool,           // saving the new customer id
    checkFails: bool,             // the active-subscription check, other than PGRST116
    writeFails: bool)             // the renewing update or the insert

  /** The gateway's replies: a customer id, and a payment URL; `None` is a non-OK response. */
  datatype Gateway = Gateway(customerReply: Option<string>, billingReply: Option<string>)

  datatype CreateResponse = PaymentUrl(url: string) | BadRequest | ServerError

  /** The body of `/customer/create`, in the fields that matter here. */
  datatype CustomerRequest = CustomerRequest(email: string, taxId: string, metadataExternalId: ProfessionalId)

  /** The body of `/billing/create`, in the fields that matter here. */
  datatype BillingRequest = BillingRequest(
    customerId: string,
    productExternalId: string,
    price: nat,
    email: string,
    taxId: string,
    metadataExternalId: ProfessionalId)

  /** The tables afterwards, the HTTP answer, and the gateway requests that were sent. */
  datatype CreateResult = CreateResult(
    db: Db,
    response: CreateResponse,
    customerRequest: Option<CustomerRequest>,
    billingRequest: Option<BillingRequest>)

  /** The price of the premium plan, in centavos. */
  const PremiumPrice: nat := 1999

  /** The route's `POST`. */
  function ApplyCreate(db: Db, userId: Option<string>, email: Option<string>, now: int, cpfBase: seq<int>,
                       gw: Gateway, f: CreateFaults): (r: CreateResult)
    requires IsCpfBase(cpfBase)
    ensures r.response.PaymentUrl? ==> r.billingRequest.Some? && gw.billingReply == Some(r.response.url)
    ensures r.billingRequest.Some? ==> && userId.Some?
                                       && r.billingRequest.value.metadataExternalId == userId.value
                                       && r.billingRequest.value.productExternalId == Webhook.ProductPrefix + userId.value
                                       && r.billingRequest.value.price == PremiumPrice
    ensures r.db.professionals.Keys == db.professionals.Keys
    ensures r.response.PaymentUrl? ==> && userId.Some?
                                       && r.db.subscriptions == RecordSubscription(db, userId.value, now).subscriptions
                                       && r.db.nextId == RecordSubscription(db, userId.value, now).nextId
    ensures !r.response.PaymentUrl? ==> r.db.subscriptions == db.subscriptions && r.db.nextId == db.nextId
  {
    if !Webhook.Truthy(userId) || !Webhook.Truthy(email) then CreateResult(db, BadRequest, None, None)
    else
      var uid := userId.value;
      if f.professionalReadFails || uid !in db.professionals then CreateResult(db, ServerError, None, None)
      else
        var stored := db.professionals[uid].customerId;
        var reuse := Webhook.Truthy(stored);
        var taxId := if reuse then "" else CpfText(CpfDigits(cpfBase));
        var customerRequest := if reuse then None else Some(CustomerRequest(email.value, taxId, uid));
        var customer := if reuse then stored else gw.customerReply;
        if customer.None? || (!reuse && f.persistFails) then CreateResult(db, ServerError, customerRequest, None)
        else
          var withCustomer :=
            if reuse then db else db.(professionals := SetCustomerId(db.professionals, uid, customer.value));
          var billing := BillingRequest(customer.value, Webhook.ProductPrefix + uid, PremiumPrice, email.value, taxId, uid);
          if gw.billingReply.None? || f.checkFails || f.writeFails then
            CreateResult(withCustomer, ServerError, customerRequest, Some(billing))
          else
            var after := RecordSubscription(withCustomer, uid, now);
            CreateResult(after, PaymentUrl(gw.billingReply.value), customerRequest, Some(billing))
  }

  /**
   * The subscription write of a successful request: the single active row,
   * when there is exactly one, goes back to pending for a new 30-day
   * window; otherwise (none, or several, both PGRST116) a new pending row
   * is inserted.
   */
  function RecordSubscription(db: Db, pid: ProfessionalId, now: int): (r: Db)
    ensures r.professionals == db.professionals
  {
    var active := ActiveOf(db.subscriptions, pid);
    if |active| == 1 then db.(subscriptions := UpdateRows(db.subscriptions, RenewById(active[0].id, now)))
    else db.(subscriptions := db.subscriptions + [NewPendingRow(db.nextId, pid, now)], nextId := db.nextId + 1)
  }

  // ---------------------------------------------------------------------
  // Properties
  // ---------------------------------------------------------------------

  /** Without `userId` or `email` the route answers 400 and touches nothing. */
  lemma CreateMissingInput(db: Db, userId: Option<string>, email: Option<string>, now: int, cpfBase: seq<int>,
                           gw: Gateway, f: CreateFaults)
    requires IsCpfBase(cpfBase)
    requires !Webhook.Truthy(userId) || !Webhook.Truthy(email)
    ensures ApplyCreate(db, userId, email, now, cpfBase, gw, f) == CreateResult(db, BadRequest, None, None)
  {
  }

  /**
   * A stored customer id is reused: no customer is created (so the
   * gateway's customer reply plays no part), the professional's row is not
   * written, and the billing carries that id and an empty tax id.
   */
  lemma CreateReusesStoredCustomer(db: Db, uid: ProfessionalId, email: string, now: int, cpfBase: seq<int>,
                                   gw: Gateway, f: CreateFaults, otherReply: Option<string>)
    requires IsCpfBase(cpfBase) && uid != "" && email != ""
    requires uid in db.professionals && Webhook.Truthy(db.professionals[uid].customerId)
    ensures var r := ApplyCreate(db, Some(uid), Some(email), now, cpfBase, gw, f);
      && r == ApplyCreate(db, Some(uid), Some(email), now, cpfBase, gw.(customerReply := otherReply), f)
      && r.customerRequest.None?
      && r.db.professionals == db.professionals
      && (r.billingRequest.Some? ==>
            r.billingRequest.value.customerId == db.professionals[uid].customerId.value && r.billingRequest.value.taxId == "")
  {
  }

  /**
   * Without a stored customer id the route creates a customer whose tax id
   * is a valid generated CPF and stores the gateway's id on the
   * professional; when the gateway refuses, nothing is written.
   */
  lemma CreateRegistersNewCustomer(db: Db, uid: ProfessionalId, email: string, now: int, cpfBase: seq<int>,
                                   gw: Gateway, f: CreateFaults)
    requires IsCpfBase(cpfBase) && uid != "" && email != ""
    requires uid in db.professionals && !Webhook.Truthy(db.professionals[uid].customerId) && !f.professionalReadFails
    ensures var r := ApplyCreate(db, Some(uid), Some(email), now, cpfBase, gw, f);
      && r.customerRequest.Some?
      && r.customerRequest.value.metadataExternalId == uid
      && Digits(r.customerRequest.value.taxId) == DigitString(CpfDigits(cpfBase))
      && IsValidCpf(CpfDigits(cpfBase))
      && (gw.customerReply.None? || f.persistFails ==> r.db == db && r.response == ServerError)
      && (gw.customerReply.Some? && !f.persistFails ==>
            && r.db.professionals == db.professionals[uid := db.professionals[uid].(customerId := gw.customerReply)]
            && r.billingRequest.Some?
            && r.billingRequest.value.customerId == gw.customerReply.value
            && r.billingRequest.value.taxId == r.customerRequest.value.taxId)
  {
    GeneratedCpfIsValid(cpfBase);
    GeneratedCpfMatchesFormMask(cpfBase);
  }

  /**
   * A billing refused by the gateway, a failed active-subscription check or
   * a failed write answers 500 and leaves the subscriptions table and the id
   * counter as they were.
   */
  lemma CreateFailureWritesNoSubscription(db: Db, userId: Option<string>, email: Option<string>, now: int,
                                          cpfBase: seq<int>, gw: Gateway, f: CreateFaults)
    requires IsCpfBase(cpfBase)
    requires gw.billingReply.None? || f.checkFails || f.writeFails
    ensures var r := ApplyCreate(db, userId, email, now, cpfBase, gw, f);
      && r.db.subscriptions == db.subscriptions
      && r.db.nextId == db.nextId
      && !r.response.PaymentUrl?
  {
  }

  /** The request succeeds, and answers with the gateway's URL, exactly when every step does. */
  lemma CreateSucceedsExactly(db: Db, uid: ProfessionalId, email: string, now: int, cpfBase: seq<int>,
                              gw: Gateway, f: CreateFaults)
    requires IsCpfBase(cpfBase) && uid != "" && email != ""
    ensures var r := ApplyCreate(db, Some(uid), Some(email), now, cpfBase, gw, f);
      var reuse := uid in db.professionals && Webhook.Truthy(db.professionals[uid].customerId);
      r.response.PaymentUrl? <==>
        && !f.professionalReadFails && uid in db.professionals
        && (reuse || (gw.customerReply.Some? && !f.persistFails))
        && gw.billingReply.Some? && !f.checkFails && !f.writeFails
    ensures var r := ApplyCreate(db, Some(uid), Some(email), now, cpfBase, gw, f);
      r.response.PaymentUrl? ==> r.response.url == gw.billingReply.value
  {
  }

  /** An invariant of the table keeps at most one row per professional in the active-subscription check. */
  lemma {:induction false} ActiveCountAtMostOne(rows: seq<Subscription>, pid: ProfessionalId)
    requires AtMostOneActive(rows)
    ensures |ActiveOf(rows, pid)| <= 1
  {
    if rows != [] {
      var tail := rows[1..];
      assert AtMostOneActive(tail) by {
        forall i, j | 0 <= i < |tail| && 0 <= j < |tail| && i != j && tail[i].status == Active && tail[j].status == Active
          ensures tail[i].professionalId != tail[j].professionalId
        {
          assert tail[i] == rows[i + 1] && tail[j] == rows[j + 1];
        }
      }
      ActiveCountAtMostOne(tail, pid);
      if rows[0].professionalId == pid && rows[0].status == Active {
        forall x | x in tail
          ensures !(x.professionalId == pid && x.status == Active)
        {
          var j :| 0 <= j < |tail| && tail[j] == x;
          assert rows[j + 1] == x;
        }
        NoActiveRowsNoActiveOf(tail, pid);
      }
    }
  }

  lemma {:induction false} NoActiveRowsNoActiveOf(rows: seq<Subscription>, pid: ProfessionalId)
    requires forall x :: x in rows ==> !(x.professionalId == pid && x.status == Active)
    ensures ActiveOf(rows, pid) == []
  {
    if rows != [] {
      assert rows[0] in rows;
      NoActiveRowsNoActiveOf(rows[1..], pid);
    }
  }

  /**
   * After a successful request the professional has no active subscription
   * and has a pending one whose window starts now and lasts 30 days: an
   * active subscription is put back to pending until the new billing is paid.
   */
  lemma RecordLeavesOnePendingWindow(db: Db, pid: ProfessionalId, now: int)
    requires WellFormed(db) && AtMostOneActive(db.subscriptions)
    ensures var rows := RecordSubscription(db, pid, now).subscriptions;
      && !HasActive(rows, pid)
      && exists i :: 0 <= i < |rows| && rows[i].professionalId == pid && rows[i].status == Pending
                     && rows[i].startDate == now && rows[i].endDate == now + BillingPeriodMs
  {
    var rows := db.subscriptions;
    var active := ActiveOf(rows, pid);
    var after := RecordSubscription(db, pid, now).subscriptions;
    ActiveCountAtMostOne(rows, pid);
    if |active| == 1 {
      var k :| 0 <= k < |rows| && rows[k] == active[0];
      assert after[k] == ApplyToRow(RenewById(active[0].id, now), rows[k]);
      forall i | 0 <= i < |after| && after[i].professionalId == pid
        ensures after[i].status != Active
      {
        assert after[i] == ApplyToRow(RenewById(active[0].id, now), rows[i]);
        if rows[i].id != active[0].id {
          assert active == [active[0]];
          assert rows[i] !in active;
        }
      }
    } else {
      assert active == [];
      var n := |rows|;
      assert after[n] == NewPendingRow(db.nextId, pid, now);
      forall i | 0 <= i < |after| && after[i].professionalId == pid
        ensures after[i].status != Active
      {
        if i < n {
          assert after[i] == rows[i];
          assert rows[i] !in active;
        }
      }
    }
  }

  /**
   * The renewing branch puts the professional's single active row back to
   * pending, with a window starting now and lasting 30 days, and leaves every
   * other row as it was; the inserting branch appends a row with a fresh id,
   * created now, and leaves every existing row as it was.
   */
  lemma RecordChangesOnlyOneRow(db: Db, pid: ProfessionalId, now: int)
    requires WellFormed(db)
    ensures var active := ActiveOf(db.subscriptions, pid);
      var after := RecordSubscription(db, pid, now);
      && (|active| == 1 ==>
            && after.nextId == db.nextId
            && |after.subscriptions| == |db.subscriptions|
            && forall i :: 0 <= i < |db.subscriptions| ==>
                 after.subscriptions[i] ==
                   if db.subscriptions[i].id == active[0].id
                   then db.subscriptions[i].(status := Pending, startDate := now, endDate := now + BillingPeriodMs, updatedAt := now)
                   else db.subscriptions[i])
      && (|active| != 1 ==>
            && after.nextId == db.nextId + 1
            && after.subscriptions == db.subscriptions + [NewPendingRow(db.nextId, pid, now)]
            && forall i :: 0 <= i < |db.subscriptions| ==> db.subscriptions[i].id != db.nextId)
  {
    var rows := db.subscriptions;
    var active := ActiveOf(rows, pid);
    if |active| == 1 {
      var after := RecordSubscription(db, pid, now).subscriptions;
      forall i | 0 <= i < |rows|
        ensures after[i] ==
                  if rows[i].id == active[0].id
                  then rows[i].(status := Pending, startDate := now, endDate := now + BillingPeriodMs, updatedAt := now)
                  else rows[i]
      {
        assert after[i] == ApplyToRow(RenewById(active[0].id, now), rows[i]);
      }
    }
  }

  /**
   * The route keeps ids unique and below the counter, and neither adds nor
   * removes professionals, whatever state the table is in.
   */
  lemma CreateKeepsWellFormed(db: Db, userId: Option<string>, email: Option<string>, now: int, cpfBase: seq<int>,
                              gw: Gateway, f: CreateFaults)
    requires IsCpfBase(cpfBase)
    requires WellFormed(db)
    ensures var after := ApplyCreate(db, userId, email, now, cpfBase, gw, f).db;
      && WellFormed(after)
      && after.professionals.Keys == db.professionals.Keys
  {
    var r := ApplyCreate(db, userId, email, now, cpfBase, gw, f);
    if r.response.PaymentUrl? {
      RecordKeepsWellFormed(db, userId.value, now);
    }
  }

  /** The route never gives a professional a second active subscription when none had two before. */
  lemma CreateKeepsOneActive(db: Db, userId: Option<string>, email: Option<string>, now: int, cpfBase: seq<int>,
                             gw: Gateway, f: CreateFaults)
    requires IsCpfBase(cpfBase)
    requires WellFormed(db) && AtMostOneActive(db.subscriptions)
    ensures AtMostOneActive(ApplyCreate(db, userId, email, now, cpfBase, gw, f).db.subscriptions)
  {
    var r := ApplyCreate(db, userId, email, now, cpfBase, gw, f);
    if r.response.PaymentUrl? {
      RecordKeepsOneActive(db, userId.value, now);
    }
  }

  /** The subscription write keeps ids unique and below the counter, and leaves the professionals alone. */
  lemma RecordKeepsWellFormed(db: Db, pid: ProfessionalId, now: int)
    requires WellFormed(db)
    ensures WellFormed(RecordSubscription(db, pid, now))
    ensures RecordSubscription(db, pid, now).professionals == db.professionals
  {
    RecordChangesOnlyOneRow(db, pid, now);
    if |ActiveOf(db.subscriptions, pid)| == 1 {
      UpdateKeepsKeys(db, RenewById(ActiveOf(db.subscriptions, pid)[0].id, now));
    }
  }

  /** The subscription write leaves every professional with at most one active row if that held before. */
  lemma RecordKeepsOneActive(db: Db, pid: ProfessionalId, now: int)
    requires WellFormed(db) && AtMostOneActive(db.subscriptions)
    ensures AtMostOneActive(RecordSubscription(db, pid, now).subscriptions)
  {
    var rows := db.subscriptions;
    var after := RecordSubscription(db, pid, now).subscriptions;
    RecordChangesOnlyOneRow(db, pid, now);
    if |ActiveOf(rows, pid)| == 1 {
      forall i | 0 <= i < |rows| && after[i].status == Active
        ensures after[i] == rows[i]
      {
      }
    } else {
      forall i | 0 <= i < |after| && after[i].status == Active
        ensures i < |rows| && after[i] == rows[i]
      {
      }
    }
  }

  /** The billing as the gateway echoes it in its webhook, with or without the customer's metadata id. */
  function EchoedBilling(req: BillingRequest, withMetadataId: bool): (b: Webhook.Billing)
    ensures |b.products| == 1 && b.products[0].externalId == Some(req.productExternalId)
  {
    Webhook.Billing(
      Webhook.Customer(Some(Webhook.Metadata(if withMetadataId then Some(req.metadataExternalId) else None))),
      [Webhook.Product(Some(req.productExternalId))])
  }

  /**
   * Round trip with the webhook: whichever of the two ids the gateway echoes
   * back, the webhook resolves the professional that asked for the billing.
   */
  lemma CreatedBillingResolvesToRequester(db: Db, uid: ProfessionalId, email: string, now: int, cpfBase: seq<int>,
                                          gw: Gateway, f: CreateFaults, withMetadataId: bool)
    requires IsCpfBase(cpfBase) && uid != "" && email != ""
    requires ApplyCreate(db, Some(uid), Some(email), now, cpfBase, gw, f).billingRequest.Some?
    ensures var req := ApplyCreate(db, Some(uid), Some(email), now, cpfBase, gw, f).billingRequest.value;
      && req.price == PremiumPrice
      && Webhook.ResolveProfessionalId(EchoedBilling(req, withMetadataId)) == Some(uid)
  {
    var req := ApplyCreate(db, Some(uid), Some(email), now, cpfBase, gw, f).billingRequest.value;
    assert req.productExternalId == Webhook.ProductPrefix + uid && req.metadataExternalId == uid;
    if !withMetadataId {
      Webhook.ProductIdRoundTrip(EchoedBilling(req, false), uid);
    }
  }
}
