/**
 * The two tables the subscription routes read and write: `professionals`
 * (keyed by id; only `subscription_status` and `abacate_pay_customer_id`
 * matter here) and `subscriptions`. Row filters and `.update(...)` calls are
 * modelled by one primitive, `UpdateRows`, driven by an `Update` that pairs
 * a WHERE clause (`Selects`) with a SET clause (`Patch`).
 * Times are integer milliseconds.
 */
module Tables {
  import opened Common

  type ProfessionalId = string
  type SubscriptionId = nat

  /** `professionals.subscription_status`. */
  datatype Tier = Free | Premium

  datatype Professional = Professional(tier: Tier, customerId: Option<string>)

  /** `subscriptions.status`. */
  datatype Status = Pending | Active | Inactive | Cancelled

  datatype Subscription = Subscription(
    id: SubscriptionId,
    professionalId: ProfessionalId,
    status: Status,
    startDate: int,
    endDate: int,
    createdAt: int,
    updatedAt: int)

  /** Both tables, and the id the database hands to the next inserted subscription. */
  datatype Db = Db(professionals: map<ProfessionalId, Professional>, subscriptions: seq<Subscription>, nextId: SubscriptionId)

  /** `30 * 24 * 60 * 60 * 1000`: the length of a billing window. */
  const BillingPeriodMs: int := 30 * 24 * 60 * 60 * 1000

  predicate UniqueIds(rows: seq<Subscription>)
  {
    forall i, j :: 0 <= i < |rows| && 0 <= j < |rows| && i != j ==> rows[i].id != rows[j].id
  }

  /** Subscription ids are a primary key and were all handed out before `nextId`. */
  predicate WellFormed(db: Db)
  {
    && UniqueIds(db.subscriptions)
    && forall i :: 0 <= i < |db.subscriptions| ==> db.subscriptions[i].id < db.nextId
  }

  /** The WHERE and SET clauses of the subscription updates the routes issue. */
  datatype Update =
      /** `.update({ status }).eq("professional_id", pid)` */
    | StatusOfProfessional(pid: ProfessionalId, status: Status)
      /** `.update({ status: "inactive" }).eq("professional_id", pid).eq("status", "active").neq("id", keep)` */
    | DeactivateOthers(pid: ProfessionalId, keep: SubscriptionId)
      /** `.update({ status, updated_at: now }).eq("id", id)` */
    | StatusById(id: SubscriptionId, status: Status, now: int)
      /** `.update({ status: "pending", start_date: now, end_date: now + 30 days, updated_at: now }).eq("id", id)` */
    | RenewById(id: SubscriptionId, now: int)

  predicate Selects(u: Update, row: Subscription)
  {
    match u
    case StatusOfProfessional(pid, _) => row.professionalId == pid
    case DeactivateOthers(pid, keep) => row.professionalId == pid && row.status == Active && row.id != keep
    case StatusById(id, _, _) => row.id == id
    case RenewById(id, _) => row.id == id
  }

  function Patch(u: Update, row: Subscription): (r: Subscription)
    ensures r.id == row.id && r.professionalId == row.professionalId && r.createdAt == row.createdAt
  {
    match u
    case StatusOfProfessional(_, status) => row.(status := status)
    case DeactivateOthers(_, _) => row.(status := Inactive)
    case StatusById(_, status, now) => row.(status := status, updatedAt := now)
    case RenewById(_, now) => row.(status := Pending, startDate := now, endDate := now + BillingPeriodMs, updatedAt := now)
  }

  function ApplyToRow(u: Update, row: Subscription): Subscription
  {
    if Selects(u, row) then Patch(u, row) else row
  }

  /** One UPDATE statement: every selected row is patched, every other row kept, order unchanged. */
  function UpdateRows(rows: seq<Subscription>, u: Update): (r: seq<Subscription>)
    ensures |r| == |rows|
    ensures forall i :: 0 <= i < |rows| ==> r[i] == ApplyToRow(u, rows[i])
  {
    if rows == [] then []
    else [ApplyToRow(u, rows[0])] + UpdateRows(rows[1..], u)
  }

  /** An UPDATE keeps every row's id, owner and creation time, so it keeps the table well formed. */
  lemma UpdateKeepsKeys(db: Db, u: Update)
    requires WellFormed(db)
    ensures WellFormed(db.(subscriptions := UpdateRows(db.subscriptions, u)))
    ensures forall i :: 0 <= i < |db.subscriptions| ==>
      && UpdateRows(db.subscriptions, u)[i].id == db.subscriptions[i].id
      && UpdateRows(db.subscriptions, u)[i].professionalId == db.subscriptions[i].professionalId
  {
    var rows := db.subscriptions;
    var r := UpdateRows(rows, u);
    forall i | 0 <= i < |rows| ensures r[i].id == rows[i].id && r[i].professionalId == rows[i].professionalId {
      assert r[i] == ApplyToRow(u, rows[i]);
    }
  }

  /** `.select("id").eq("professional_id", pid).eq("status", "active")`. */
  function ActiveOf(rows: seq<Subscription>, pid: ProfessionalId): (r: seq<Subscription>)
    ensures forall x :: x in r <==> x in rows && x.professionalId == pid && x.status == Active
    ensures |r| <= |rows|
  {
    if rows == [] then []
    else if rows[0].professionalId == pid && rows[0].status == Active then [rows[0]] + ActiveOf(rows[1..], pid)
    else ActiveOf(rows[1..], pid)
  }

  /** `ActiveOf` returns each active row of the professional as often as the table holds it, and nothing else. */
  lemma {:induction false} ActiveOfCounts(rows: seq<Subscription>, pid: ProfessionalId)
    ensures forall x :: multiset(ActiveOf(rows, pid))[x] ==
                          if x.professionalId == pid && x.status == Active then multiset(rows)[x] else 0
  {
    if rows != [] {
      assert rows == [rows[0]] + rows[1..];
      ActiveOfCounts(rows[1..], pid);
    }
  }

  predicate HasActive(rows: seq<Subscription>, pid: ProfessionalId)
  {
    exists i :: 0 <= i < |rows| && rows[i].professionalId == pid && rows[i].status == Active
  }

  /** No professional owns two active subscriptions. */
  predicate AtMostOneActive(rows: seq<Subscription>)
  {
    forall i, j :: 0 <= i < |rows| && 0 <= j < |rows| && i != j && rows[i].status == Active && rows[j].status == Active
      ==> rows[i].professionalId != rows[j].professionalId
  }

  /**
   * `.eq("professional_id", pid).eq("status", "pending").order("created_at",
   * { ascending: false }).limit(1)`: the pending row created last; among rows
   * created at the same instant, the first in table order.
   */
  function LatestPending(rows: seq<Subscription>, pid: ProfessionalId): (r: Option<Subscription>)
    ensures r.None? <==> forall i :: 0 <= i < |rows| ==> !(rows[i].professionalId == pid && rows[i].status == Pending)
    ensures r.Some? ==> r.value in rows && r.value.professionalId == pid && r.value.status == Pending
    ensures r.Some? ==> (forall i :: 0 <= i < |rows| && rows[i].professionalId == pid && rows[i].status == Pending
                           ==> rows[i].createdAt <= r.value.createdAt)
  {
    if rows == [] then None
    else
      var rest := LatestPending(rows[1..], pid);
      if rows[0].professionalId == pid && rows[0].status == Pending && (rest.None? || rest.value.createdAt <= rows[0].createdAt)
      then Some(rows[0])
      else
        assert forall i :: 1 <= i < |rows| ==> rows[i] == rows[1..][i - 1];
        rest
  }

  predicate IsExpired(row: Subscription, now: int)
  {
    row.status == Active && row.endDate < now
  }

  /** `.select("id, professional_id, end_date").eq("status", "active").lt("end_date", now)`, in table order. */
  function ExpiredActive(rows: seq<Subscription>, now: int): (r: seq<Subscription>)
    ensures forall x :: x in r <==> x in rows && IsExpired(x, now)
    ensures |r| <= |rows|
  {
    if rows == [] then []
    else if IsExpired(rows[0], now) then [rows[0]] + ExpiredActive(rows[1..], now)
    else ExpiredActive(rows[1..], now)
  }

  /** `ExpiredActive` returns each expired active row as often as the table holds it, and nothing else. */
  lemma {:induction false} ExpiredActiveCounts(rows: seq<Subscription>, now: int)
    ensures forall x :: multiset(ExpiredActive(rows, now))[x] == if IsExpired(x, now) then multiset(rows)[x] else 0
  {
    if rows != [] {
      assert rows == [rows[0]] + rows[1..];
      ExpiredActiveCounts(rows[1..], now);
    }
  }

  /** The row `.insert(...)` adds for a new pending subscription. */
  function NewPendingRow(id: SubscriptionId, pid: ProfessionalId, now: int): (r: Subscription)
    ensures r.status == Pending && r.professionalId == pid && r.id == id
    ensures r.startDate == now && r.endDate == now + BillingPeriodMs
    ensures r.createdAt == now && r.updatedAt == now
  {
    Subscription(id, pid, Pending, now, now + BillingPeriodMs, now, now)
  }

  /** Sets a professional's `subscription_status`; an id with no row matches nothing. */
  function SetTier(profs: map<ProfessionalId, Professional>, pid: ProfessionalId, tier: Tier): (r: map<ProfessionalId, Professional>)
    ensures r.Keys == profs.Keys
    ensures pid in profs ==> r[pid] == profs[pid].(tier := tier)
    ensures forall q :: q in profs && q != pid ==> r[q] == profs[q]
  {
    if pid in profs then profs[pid := profs[pid].(tier := tier)] else profs
  }

  /** Stores a professional's payment-gateway customer id; an id with no row matches nothing. */
  function SetCustomerId(profs: map<ProfessionalId, Professional>, pid: ProfessionalId, customer: string): (r: map<ProfessionalId, Professional>)
    ensures r.Keys == profs.Keys
    ensures pid in profs ==> r[pid] == profs[pid].(customerId := Some(customer))
    ensures forall q :: q in profs && q != pid ==> r[q] == profs[q]
  {
    if pid in profs then profs[pid := profs[pid].(customerId := Some(customer))] else profs
  }
}
