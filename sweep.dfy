/**
 * The expiration sweep (`app/api/check-expired-subscriptions/route.ts`): it
 * selects every active subscription whose end date has passed and, one at a
 * time, marks it inactive and, when its professional then has no active
 * subscription left, moves the professional back to the free tier. An error
 * on any of those statements skips the rest of that subscription's work and
 * the sweep goes on; only an error in the first select fails the request.
 *
 * Database errors are the sets of subscription ids in `SweepFaults` whose
 * statement fails; every `new Date()` of one request is the instant `now`.
 */
module Sweep {
  import opened Tables

  datatype SweepFaults = SweepFaults(
    fetchFails: bool,                      // the select of expired subscriptions
    updateFails: set<SubscriptionId>,      // marking that subscription inactive
    recheckFails: set<SubscriptionId>,     // the check for other active subscriptions
    demoteFails: set<SubscriptionId>)      // moving its professional to free

  predicate NoStatementFails(f: SweepFaults)
  {
    !f.fetchFails && f.updateFails == {} && f.recheckFails == {} && f.demoteFails == {}
  }

  /** The JSON answer: `expiredCount`, or the 500 error. */
  datatype SweepResponse = Swept(expiredCount: nat) | SweepError

  /** One iteration of the loop, for one selected subscription. */
  function SweepStep(db: Db, row: Subscription, now: int, f: SweepFaults): (r: Db)
    ensures r.professionals.Keys == db.professionals.Keys
  {
    if row.id in f.updateFails then db
    else
      var closed := db.(subscriptions := UpdateRows(db.subscriptions, StatusById(row.id, Inactive, now)));
      if row.id in f.recheckFails || HasActive(closed.subscriptions, row.professionalId) || row.id in f.demoteFails then closed
      else closed.(professionals := SetTier(closed.professionals, row.professionalId, Free))
  }

  /** The loop over the selected subscriptions, in the order the select returned them. */
  function SweepAll(db: Db, sel: seq<Subscription>, now: int, f: SweepFaults): (r: Db)
    ensures r.professionals.Keys == db.professionals.Keys
    decreases |sel|
  {
    if sel == [] then db else SweepAll(SweepStep(db, sel[0], now, f), sel[1..], now, f)
  }

  /** The route's `GET`. */
  function ApplySweep(db: Db, now: int, f: SweepFaults): (r: (Db, SweepResponse))
    ensures r.1 == SweepError <==> f.fetchFails
    ensures r.1.Swept? ==> r.1.expiredCount <= |db.subscriptions|
    ensures r.0.professionals.Keys == db.professionals.Keys
  {
    if f.fetchFails then (db, SweepError)
    else
      var sel := ExpiredActive(db.subscriptions, now);
      (SweepAll(db, sel, now, f), Swept(|sel|))
  }

  // ---------------------------------------------------------------------
  // Properties
  // ---------------------------------------------------------------------

  function Ids(sel: seq<Subscription>): set<SubscriptionId>
  {
    set k | 0 <= k < |sel| :: sel[k].id
  }

  function Owners(sel: seq<Subscription>): set<ProfessionalId>
  {
    set k | 0 <= k < |sel| :: sel[k].professionalId
  }

  /** What the loop leaves of one row: closed when it was selected and its update succeeded. */
  function Closed(row: Subscription, sel: seq<Subscription>, now: int, f: SweepFaults): Subscription
  {
    if row.id in Ids(sel) && row.id !in f.updateFails then row.(status := Inactive, updatedAt := now) else row
  }

  /** Every selected row id names a row of the same professional. */
  predicate SelectionMatches(rows: seq<Subscription>, sel: seq<Subscription>)
  {
    forall i, k :: 0 <= i < |rows| && 0 <= k < |sel| && rows[i].id == sel[k].id ==>
      rows[i].professionalId == sel[k].professionalId
  }

  /**
   * Row by row, the loop closes exactly the selected rows whose update
   * succeeded, stamping `updated_at`, and leaves every other row alone.
   */
  lemma {:induction false} SweepAllRows(db: Db, sel: seq<Subscription>, now: int, f: SweepFaults)
    ensures var after := SweepAll(db, sel, now, f);
      && |after.subscriptions| == |db.subscriptions|
      && after.nextId == db.nextId
      && after.professionals.Keys == db.professionals.Keys
      && forall i :: 0 <= i < |db.subscriptions| ==> after.subscriptions[i] == Closed(db.subscriptions[i], sel, now, f)
    decreases |sel|
  {
    if sel != [] {
      var rows := db.subscriptions;
      var rest := sel[1..];
      var db1 := SweepStep(db, sel[0], now, f);
      SweepAllRows(db1, rest, now, f);
      assert Ids(sel) == {sel[0].id} + Ids(rest) by {
        forall x | x in Ids(sel) ensures x in {sel[0].id} + Ids(rest)
        {
          var k :| 0 <= k < |sel| && sel[k].id == x;
          if k > 0 {
            assert rest[k - 1].id == x;
          }
        }
        forall x | x in Ids(rest) ensures x in Ids(sel)
        {
          var k :| 0 <= k < |rest| && rest[k].id == x;
          assert sel[k + 1].id == x;
        }
      }
      forall i | 0 <= i < |rows|
        ensures db1.subscriptions[i] ==
          if rows[i].id == sel[0].id && sel[0].id !in f.updateFails then rows[i].(status := Inactive, updatedAt := now) else rows[i]
      {
        if sel[0].id !in f.updateFails {
          assert db1.subscriptions[i] == ApplyToRow(StatusById(sel[0].id, Inactive, now), rows[i]);
        }
      }
    }
  }

  /** The sweep never makes a row active. */
  lemma SweepNeverActivates(db: Db, sel: seq<Subscription>, now: int, f: SweepFaults, q: ProfessionalId)
    ensures HasActive(SweepAll(db, sel, now, f).subscriptions, q) ==> HasActive(db.subscriptions, q)
  {
    SweepAllRows(db, sel, now, f);
    var after := SweepAll(db, sel, now, f).subscriptions;
    if HasActive(after, q) {
      var i :| 0 <= i < |after| && after[i].professionalId == q && after[i].status == Active;
      assert after[i] == Closed(db.subscriptions[i], sel, now, f);
    }
  }

  /**
   * A professional's row either stays as it was or only moves to free, and
   * then the professional owns a selected subscription and has no active
   * subscription left at the end.
   */
  lemma {:induction false} SweepAllProfessionals(db: Db, sel: seq<Subscription>, now: int, f: SweepFaults)
    ensures var after := SweepAll(db, sel, now, f);
      forall q :: q in db.professionals ==>
        || after.professionals[q] == db.professionals[q]
        || (&& after.professionals[q] == db.professionals[q].(tier := Free)
            && !HasActive(after.subscriptions, q)
            && q in Owners(sel))
    decreases |sel|
  {
    if sel != [] {
      var rest := sel[1..];
      var db1 := SweepStep(db, sel[0], now, f);
      var after := SweepAll(db, sel, now, f);
      assert after == SweepAll(db1, rest, now, f);
      SweepAllProfessionals(db1, rest, now, f);
      SweepAllRows(db1, rest, now, f);
      forall q | q in db.professionals
        ensures || after.professionals[q] == db.professionals[q]
                || (&& after.professionals[q] == db.professionals[q].(tier := Free)
                    && !HasActive(after.subscriptions, q)
                    && q in Owners(sel))
      {
        assert sel[0].professionalId in Owners(sel);
        assert Owners(rest) <= Owners(sel) by {
          forall x | x in Owners(rest) ensures x in Owners(sel)
          {
            var k :| 0 <= k < |rest| && rest[k].professionalId == x;
            assert sel[k + 1].professionalId == x;
          }
        }
        SweepNeverActivates(db1, rest, now, f, q);
      }
    }
  }

  /**
   * Without statement failures, every professional that owns a selected
   * subscription and has no active subscription left ends on the free tier.
   */
  lemma {:induction false} SweepAllDemotes(db: Db, sel: seq<Subscription>, now: int, f: SweepFaults, q: ProfessionalId)
    requires f.updateFails == {} && f.recheckFails == {} && f.demoteFails == {}
    requires SelectionMatches(db.subscriptions, sel)
    requires q in db.professionals && q in Owners(sel)
    requires !HasActive(SweepAll(db, sel, now, f).subscriptions, q)
    ensures SweepAll(db, sel, now, f).professionals[q].tier == Free
    decreases |sel|
  {
    var rest := sel[1..];
    var db1 := SweepStep(db, sel[0], now, f);
    var after := SweepAll(db1, rest, now, f);
    SweepAllRows(db, [sel[0]], now, f);
    assert SweepAll(db, [sel[0]], now, f) == SweepAll(db1, [], now, f) == db1;
    assert SelectionMatches(db1.subscriptions, rest) by {
      forall i, k | 0 <= i < |db1.subscriptions| && 0 <= k < |rest| && db1.subscriptions[i].id == rest[k].id
        ensures db1.subscriptions[i].professionalId == rest[k].professionalId
      {
        assert db1.subscriptions[i] == Closed(db.subscriptions[i], [sel[0]], now, f);
        assert rest[k] == sel[k + 1];
      }
    }
    SweepAllRows(db1, rest, now, f);
    SweepAllProfessionals(db1, rest, now, f);
    if q in Owners(rest) {
      SweepAllDemotes(db1, rest, now, f, q);
    } else {
      forall k | 0 <= k < |rest|
        ensures rest[k].professionalId != q
      {
        assert rest[k].professionalId in Owners(rest);
      }
      assert q == sel[0].professionalId by {
        forall k | 0 < k < |sel|
          ensures sel[k].professionalId != q
        {
          assert sel[k] == rest[k - 1];
        }
      }
      var rows1 := db1.subscriptions;
      forall i | 0 <= i < |rows1| && rows1[i].professionalId == q
        ensures rows1[i].status != Active
      {
        assert rows1[i].id !in Ids(rest);
        assert after.subscriptions[i] == rows1[i];
      }
      var closed := db.(subscriptions := UpdateRows(db.subscriptions, StatusById(sel[0].id, Inactive, now)));
      assert closed.subscriptions == rows1;
      assert db1.professionals[q].tier == Free;
    }
  }

  /** With unique ids, the select's rows name their own professionals. */
  lemma ExpiredSelectionMatches(rows: seq<Subscription>, now: int)
    requires UniqueIds(rows)
    ensures SelectionMatches(rows, ExpiredActive(rows, now))
  {
    var sel := ExpiredActive(rows, now);
    forall i, k | 0 <= i < |rows| && 0 <= k < |sel| && rows[i].id == sel[k].id
      ensures rows[i].professionalId == sel[k].professionalId
    {
      assert sel[k] in sel;
      var j :| 0 <= j < |rows| && rows[j] == sel[k];
      assert i == j;
    }
  }

  /** A row is closed by the sweep exactly when it was expired and its update succeeded. */
  lemma ClosedIffExpired(rows: seq<Subscription>, i: nat, now: int, f: SweepFaults)
    requires UniqueIds(rows) && i < |rows|
    ensures var sel := ExpiredActive(rows, now);
      Closed(rows[i], sel, now, f) ==
        if IsExpired(rows[i], now) && rows[i].id !in f.updateFails then rows[i].(status := Inactive, updatedAt := now) else rows[i]
  {
    var sel := ExpiredActive(rows, now);
    if IsExpired(rows[i], now) {
      assert rows[i] in sel;
      var k :| 0 <= k < |sel| && sel[k] == rows[i];
      assert sel[k].id in Ids(sel);
    }
    if rows[i].id in Ids(sel) {
      var k :| 0 <= k < |sel| && sel[k].id == rows[i].id;
      assert sel[k] in sel;
      var j :| 0 <= j < |rows| && rows[j] == sel[k];
      assert j == i;
    }
  }

  /**
   * The sweep's effect on the subscriptions table: every expired active
   * subscription whose update succeeded becomes inactive with `updated_at`
   * set, every other row is unchanged, and the answer counts the selected
   * rows, failed ones included.
   */
  lemma SweepEffect(db: Db, now: int, f: SweepFaults)
    requires WellFormed(db) && !f.fetchFails
    ensures var (after, response) := ApplySweep(db, now, f);
      && response == Swept(|ExpiredActive(db.subscriptions, now)|)
      && after.nextId == db.nextId
      && after.professionals.Keys == db.professionals.Keys
      && |after.subscriptions| == |db.subscriptions|
      && forall i :: 0 <= i < |db.subscriptions| ==>
           after.subscriptions[i] ==
             if IsExpired(db.subscriptions[i], now) && db.subscriptions[i].id !in f.updateFails
             then db.subscriptions[i].(status := Inactive, updatedAt := now)
             else db.subscriptions[i]
  {
    var sel := ExpiredActive(db.subscriptions, now);
    SweepAllRows(db, sel, now, f);
    forall i | 0 <= i < |db.subscriptions|
      ensures SweepAll(db, sel, now, f).subscriptions[i] ==
        if IsExpired(db.subscriptions[i], now) && db.subscriptions[i].id !in f.updateFails
        then db.subscriptions[i].(status := Inactive, updatedAt := now)
        else db.subscriptions[i]
    {
      ClosedIffExpired(db.subscriptions, i, now, f);
    }
  }

  /** A failed select answers 500 and changes nothing. */
  lemma SweepFetchErrorChangesNothing(db: Db, now: int, f: SweepFaults)
    requires f.fetchFails
    ensures ApplySweep(db, now, f) == (db, SweepError)
  {
  }

  /**
   * A professional moves to free only if it owned an expired subscription
   * and has no active subscription afterwards; a professional keeping a
   * subscription that has not expired is left as it was.
   */
  lemma SweepDemotesOnlyLapsed(db: Db, now: int, f: SweepFaults, q: ProfessionalId)
    requires WellFormed(db) && q in db.professionals
    ensures var after := ApplySweep(db, now, f).0;
      && (after.professionals[q] == db.professionals[q]
          || (&& after.professionals[q] == db.professionals[q].(tier := Free)
              && !HasActive(after.subscriptions, q)
              && exists i :: 0 <= i < |db.subscriptions| && db.subscriptions[i].professionalId == q
                             && IsExpired(db.subscriptions[i], now)))
      && ((exists i :: 0 <= i < |db.subscriptions| && db.subscriptions[i].professionalId == q
                       && db.subscriptions[i].status == Active && !IsExpired(db.subscriptions[i], now))
          ==> after.professionals[q] == db.professionals[q])
  {
    if !f.fetchFails {
      var rows := db.subscriptions;
      var sel := ExpiredActive(rows, now);
      var after := SweepAll(db, sel, now, f);
      SweepAllProfessionals(db, sel, now, f);
      SweepEffect(db, now, f);
      if q in Owners(sel) {
        var k :| 0 <= k < |sel| && sel[k].professionalId == q;
        assert sel[k] in sel;
        var j :| 0 <= j < |rows| && rows[j] == sel[k];
        assert rows[j].professionalId == q && IsExpired(rows[j], now);
      }
      if exists i :: 0 <= i < |rows| && rows[i].professionalId == q && rows[i].status == Active && !IsExpired(rows[i], now) {
        var i :| 0 <= i < |rows| && rows[i].professionalId == q && rows[i].status == Active && !IsExpired(rows[i], now);
        assert after.subscriptions[i] == rows[i];
        assert HasActive(after.subscriptions, q);
      }
    }
  }

  /**
   * When no statement fails, no expired active subscription remains and
   * every professional that owned one and has no active subscription left
   * is on the free tier.
   */
  lemma SweepCompletes(db: Db, now: int, f: SweepFaults, q: ProfessionalId)
    requires WellFormed(db) && NoStatementFails(f)
    ensures ExpiredActive(ApplySweep(db, now, f).0.subscriptions, now) == []
    ensures var after := ApplySweep(db, now, f).0;
      (&& q in db.professionals
       && (exists i :: 0 <= i < |db.subscriptions| && db.subscriptions[i].professionalId == q
                       && IsExpired(db.subscriptions[i], now))
       && !HasActive(after.subscriptions, q))
      ==> after.professionals[q].tier == Free
  {
    var rows := db.subscriptions;
    var sel := ExpiredActive(rows, now);
    var after := SweepAll(db, sel, now, f);
    SweepEffect(db, now, f);
    forall x | x in after.subscriptions
      ensures !IsExpired(x, now)
    {
      var i :| 0 <= i < |after.subscriptions| && after.subscriptions[i] == x;
      assert after.subscriptions[i] == if IsExpired(rows[i], now) then rows[i].(status := Inactive, updatedAt := now) else rows[i];
    }
    NothingExpiredSelectsNothing(after.subscriptions, now);
    if && q in db.professionals
       && (exists i :: 0 <= i < |rows| && rows[i].professionalId == q && IsExpired(rows[i], now))
       && !HasActive(after.subscriptions, q) {
      var i :| 0 <= i < |rows| && rows[i].professionalId == q && IsExpired(rows[i], now);
      assert rows[i] in sel;
      var k :| 0 <= k < |sel| && sel[k] == rows[i];
      assert sel[k].professionalId in Owners(sel);
      ExpiredSelectionMatches(rows, now);
      SweepAllDemotes(db, sel, now, f, q);
    }
  }

  lemma {:induction false} NothingExpiredSelectsNothing(rows: seq<Subscription>, now: int)
    requires forall x :: x in rows ==> !IsExpired(x, now)
    ensures ExpiredActive(rows, now) == []
  {
    if rows != [] {
      assert rows[0] in rows;
      NothingExpiredSelectsNothing(rows[1..], now);
    }
  }

  /**
   * Running the sweep again at the same instant, after a run whose updates
   * all succeeded, finds nothing and changes nothing.
   */
  lemma SweepTwiceIsNoOp(db: Db, now: int, f: SweepFaults, g: SweepFaults)
    requires WellFormed(db) && !f.fetchFails && f.updateFails == {} && !g.fetchFails
    ensures var after := ApplySweep(db, now, f).0;
      ApplySweep(after, now, g) == (after, Swept(0))
  {
    var rows := db.subscriptions;
    var after := ApplySweep(db, now, f).0;
    SweepEffect(db, now, f);
    forall x | x in after.subscriptions
      ensures !IsExpired(x, now)
    {
      var i :| 0 <= i < |after.subscriptions| && after.subscriptions[i] == x;
      assert after.subscriptions[i] == if IsExpired(rows[i], now) then rows[i].(status := Inactive, updatedAt := now) else rows[i];
    }
    NothingExpiredSelectsNothing(after.subscriptions, now);
  }

  /** The sweep keeps ids unique and below the counter, whatever state the table is in. */
  lemma SweepKeepsWellFormed(db: Db, now: int, f: SweepFaults)
    requires WellFormed(db)
    ensures WellFormed(ApplySweep(db, now, f).0)
  {
    if !f.fetchFails {
      var rows := db.subscriptions;
      var after := ApplySweep(db, now, f).0.subscriptions;
      SweepEffect(db, now, f);
      assert forall i :: 0 <= i < |rows| ==> after[i].id == rows[i].id;
    }
  }

  /** The sweep never gives a professional a second active subscription when none had two before. */
  lemma SweepKeepsOneActive(db: Db, now: int, f: SweepFaults)
    requires WellFormed(db) && AtMostOneActive(db.subscriptions)
    ensures AtMostOneActive(ApplySweep(db, now, f).0.subscriptions)
  {
    if !f.fetchFails {
      var rows := db.subscriptions;
      var after := ApplySweep(db, now, f).0.subscriptions;
      SweepEffect(db, now, f);
      assert forall i :: 0 <= i < |rows| ==> after[i].professionalId == rows[i].professionalId;
      assert forall i :: 0 <= i < |rows| && after[i].status == Active ==> rows[i].status == Active;
    }
  }
}
