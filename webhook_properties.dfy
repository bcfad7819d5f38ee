/**
 * Properties of the reconciliation: redeliveries, each at its own server time
 * and all in one store order, amount to the last successful one; missing
 * correlations are no-ops; and grant and revoke leave the record in the state
 * of whichever of them was processed last, as long as no other document
 * carries the same customer id.
 */
module WebhookProperties {
  import opened Wrappers
  import opened JsText
  import opened Webhook

  // ---------------------------------------------------------------------------
  // Absolute overwrites

  /** Both updates overwrite with constants: the result does not depend on the fields they write. */
  lemma PatchIsAbsolute(r1: UserRecord, r2: UserRecord, p: Patch)
    requires r1.rest == r2.rest
    requires p.RevokePatch? ==>
      && r1.subscriptionType == r2.subscriptionType
      && r1.stripeCustomerId == r2.stripeCustomerId
      && r1.stripeSubscriptionId == r2.stripeSubscriptionId
    ensures Apply(r1, p) == Apply(r2, p)
  {
  }

  /** Applying the same update twice gives the same document as applying it once. */
  lemma PatchIdempotent(r: UserRecord, p: Patch)
    ensures Apply(Apply(r, p), p) == Apply(r, p)
  {
  }

  /**
   * Of two updates of the same kind, the later one decides every field either
   * writes, whatever their server times and ids.
   */
  lemma PatchLaterWins(r: UserRecord, p1: Patch, p2: Patch)
    requires p1.GrantPatch? == p2.GrantPatch?
    ensures Apply(Apply(r, p1), p2) == Apply(r, p2)
  {
  }

  // ---------------------------------------------------------------------------
  // Grant

  /** A second delivery of the same completed checkout, with the same server time, changes nothing. */
  lemma GrantIdempotent(t: Table, session: EventObject, now: Timestamp)
    ensures GrantTable(GrantTable(t, session, now, false), session, now, false) == GrantTable(t, session, now, false)
  {
    var t1 := GrantTable(t, session, now, false);
    if GrantWrites(t, session, false) {
      var k := UserIdOf(session).value;
      assert GrantWrites(t1, session, false);
      PatchIdempotent(t[k], GrantPatch(session.customer, session.subscription, now));
      assert t1[k := Apply(t1[k], GrantPatch(session.customer, session.subscription, now))] == t1;
    }
  }

  /**
   * A later delivery of the same completed checkout, with its own server time,
   * gives the collection that delivery alone would give.
   */
  lemma GrantLaterWins(t: Table, session: EventObject, now1: Timestamp, now2: Timestamp)
    ensures GrantTable(GrantTable(t, session, now1, false), session, now2, false) == GrantTable(t, session, now2, false)
  {
    var t1 := GrantTable(t, session, now1, false);
    if GrantWrites(t, session, false) {
      var k := UserIdOf(session).value;
      var p2 := GrantPatch(session.customer, session.subscription, now2);
      assert GrantWrites(t1, session, false);
      PatchLaterWins(t[k], GrantPatch(session.customer, session.subscription, now1), p2);
      assert t1[k := Apply(t1[k], p2)] == t[k := Apply(t[k], p2)];
    }
  }

  // ---------------------------------------------------------------------------
  // Revoke

  /** At most one document carries `customer`. */
  ghost predicate UniqueCustomer(t: Table, customer: string) {
    forall j, k :: Matches(t, j, customer) && Matches(t, k, customer) ==> j == k
  }

  /** The store's answer depends only on which documents match. */
  lemma {:induction false} FirstMatchStable(scan: seq<UserId>, t: Table, t': Table, customer: string)
    requires forall k :: Matches(t, k, customer) <==> Matches(t', k, customer)
    ensures FirstMatch(scan, t, customer) == FirstMatch(scan, t', customer)
  {
    if scan != [] && !Matches(t, scan[0], customer) {
      FirstMatchStable(scan[1..], t, t', customer);
    }
  }

  /** A revoke keeps every document's `stripeCustomerId`, so it changes no answer of the customer query. */
  lemma RevokeKeepsMatches(t: Table, customer: string, c: string, now: Timestamp, fault: bool, scan: seq<UserId>)
    requires Covers(scan, t)
    ensures forall k :: Matches(t, k, c) <==> Matches(RevokeTable(t, customer, now, fault, scan), k, c)
  {
  }

  /** With the store visiting documents in one fixed order, a repeated cancellation changes nothing. */
  lemma RevokeIdempotent(t: Table, customer: string, now: Timestamp, scan: seq<UserId>)
    requires Covers(scan, t)
    ensures RevokeTable(RevokeTable(t, customer, now, false, scan), customer, now, false, scan)
         == RevokeTable(t, customer, now, false, scan)
  {
    var t1 := RevokeTable(t, customer, now, false, scan);
    RevokeKeepsMatches(t, customer, customer, now, false, scan);
    FirstMatchStable(scan, t, t1, customer);
    match FirstMatch(scan, t, customer)
    case None =>
    case Some(k) =>
      PatchIdempotent(t[k], RevokePatch(now));
      assert t1[k := Apply(t1[k], RevokePatch(now))] == t1;
  }

  /**
   * With one visiting order, a later delivery of the same cancellation, with its
   * own server time, gives the collection that delivery alone would give.
   */
  lemma RevokeLaterWins(t: Table, customer: string, now1: Timestamp, now2: Timestamp, scan: seq<UserId>)
    requires Covers(scan, t)
    ensures RevokeTable(RevokeTable(t, customer, now1, false, scan), customer, now2, false, scan)
         == RevokeTable(t, customer, now2, false, scan)
  {
    var t1 := RevokeTable(t, customer, now1, false, scan);
    RevokeKeepsMatches(t, customer, customer, now1, false, scan);
    FirstMatchStable(scan, t, t1, customer);
    match FirstMatch(scan, t, customer)
    case None =>
    case Some(k) =>
      PatchLaterWins(t[k], RevokePatch(now1), RevokePatch(now2));
      assert t1[k := Apply(t1[k], RevokePatch(now2))] == t[k := Apply(t[k], RevokePatch(now2))];
  }

  /**
   * When at most one document carries the customer id, a repeated cancellation
   * changes nothing even if the store visits documents in a different order the
   * second time.
   */
  lemma RevokeIdempotentWhenCustomerUnique(t: Table, customer: string, now: Timestamp, scan1: seq<UserId>, scan2: seq<UserId>)
    requires Covers(scan1, t) && Covers(scan2, t)
    requires UniqueCustomer(t, customer)
    ensures RevokeTable(RevokeTable(t, customer, now, false, scan1), customer, now, false, scan2)
         == RevokeTable(t, customer, now, false, scan1)
  {
    var t1 := RevokeTable(t, customer, now, false, scan1);
    RevokeKeepsMatches(t, customer, customer, now, false, scan1);
    match FirstMatch(scan1, t, customer)
    case None =>
      assert forall k :: k in t ==> !Matches(t, k, customer) by {
        forall k | k in t ensures !Matches(t, k, customer) {
          var i :| 0 <= i < |scan1| && scan1[i] == k;
        }
      }
    case Some(k) =>
      assert Matches(t1, k, customer);
      var i :| 0 <= i < |scan2| && scan2[i] == k;
      var k2 := FirstMatch(scan2, t1, customer);
      assert k2 == Some(k);
      PatchIdempotent(t[k], RevokePatch(now));
      assert t1[k := Apply(t1[k], RevokePatch(now))] == t1;
  }

  /**
   * Without uniqueness the query may answer with another document on redelivery:
   * two documents share a customer id, and the second delivery revokes the other one.
   */
  lemma DuplicateCustomerRevokeNotIdempotent()
    ensures var r := UserRecord(true, None, Some(StripeTag), Some("cus_1"), Some("sub_1"), Some(1), map[]);
            var t := map["a" := r, "b" := r];
            var once := RevokeTable(t, "cus_1", 2, false, ["a", "b"]);
            RevokeTable(once, "cus_1", 2, false, ["b", "a"]) != once
  {
    var r := UserRecord(true, None, Some(StripeTag), Some("cus_1"), Some("sub_1"), Some(1), map[]);
    var t := map["a" := r, "b" := r];
    var once := RevokeTable(t, "cus_1", 2, false, ["a", "b"]);
    assert FirstMatch(["a", "b"], t, "cus_1") == Some("a");
    assert once["b"] == r;
    assert FirstMatch(["b", "a"], once, "cus_1") == Some("b");
    assert RevokeTable(once, "cus_1", 2, false, ["b", "a"])["b"].isPremium == false;
  }

  // ---------------------------------------------------------------------------
  // Whole events and redelivery

  /** Dispatching the same authenticated event twice gives the same collection as dispatching it once. */
  lemma ReconcileIdempotent(t: Table, ev: Event, now: Timestamp, scan: seq<UserId>)
    requires Covers(scan, t)
    ensures Reconcile(Reconcile(t, ev, now, false, scan), ev, now, false, scan) == Reconcile(t, ev, now, false, scan)
  {
    if ev.eventType == CheckoutCompleted {
      GrantIdempotent(t, ev.dataObject, now);
    } else if ev.eventType == SubscriptionDeleted {
      RevokeIdempotent(t, ev.dataObject.customer, now, scan);
    }
  }

  /**
   * Of two successful deliveries of one event, in one store order, the later
   * decides the collection: each delivery carries its own server time.
   */
  lemma ReconcileLaterWins(t: Table, ev: Event, now1: Timestamp, now2: Timestamp, scan: seq<UserId>)
    requires Covers(scan, t)
    ensures Reconcile(Reconcile(t, ev, now1, false, scan), ev, now2, false, scan) == Reconcile(t, ev, now2, false, scan)
  {
    if ev.eventType == CheckoutCompleted {
      GrantLaterWins(t, ev.dataObject, now1, now2);
    } else if ev.eventType == SubscriptionDeleted {
      RevokeLaterWins(t, ev.dataObject.customer, now1, now2, scan);
    }
  }

  /** One delivery of an event: the server time it is processed at, and whether the store call failed. */
  datatype Delivery = Delivery(now: Timestamp, fault: bool)

  /**
   * The collection after the provider has delivered one event once per entry of
   * `ds`, in that order, with the store visiting documents in the order `scan`
   * every time.
   */
  function Redeliver(t: Table, ev: Event, scan: seq<UserId>, ds: seq<Delivery>): (t': Table)
    requires Covers(scan, t)
    ensures t'.Keys == t.Keys
    decreases |ds|
  {
    if ds == [] then t
    else
      var d := ds[|ds| - 1];
      Reconcile(Redeliver(t, ev, scan, ds[..|ds| - 1]), ev, d.now, d.fault, scan)
  }

  /** Every delivery from index `from` on failed in the store. */
  predicate FaultsFrom(ds: seq<Delivery>, from: nat) {
    forall j :: from <= j < |ds| ==> ds[j].fault
  }

  /** The server time of the last delivery whose store call succeeded, if any did. */
  function LastSuccess(ds: seq<Delivery>): (r: Option<Timestamp>)
    ensures r.None? <==> FaultsFrom(ds, 0)
    ensures r.Some? ==> exists i :: 0 <= i < |ds| && !ds[i].fault && ds[i].now == r.value && FaultsFrom(ds, i + 1)
    decreases |ds|
  {
    if ds == [] then None
    else if !ds[|ds| - 1].fault then
      assert FaultsFrom(ds, |ds|);
      Some(ds[|ds| - 1].now)
    else
      var prefix := ds[..|ds| - 1];
      var r := LastSuccess(prefix);
      assert forall i :: 0 <= i < |prefix| ==> prefix[i] == ds[i];
      assert r.Some? ==> exists i :: 0 <= i < |ds| && !ds[i].fault && ds[i].now == r.value && FaultsFrom(ds, i + 1) by {
        if r.Some? {
          var i :| 0 <= i < |prefix| && !prefix[i].fault && prefix[i].now == r.value && FaultsFrom(prefix, i + 1);
          assert FaultsFrom(ds, i + 1);
        }
      }
      r
  }

  /**
   * At-least-once delivery is safe: any number of deliveries of one event, each
   * with its own server time and some failing in the store, give the collection
   * that one successful delivery at the time of the last successful one gives,
   * or the untouched collection when every delivery failed. All deliveries see
   * the same store order.
   */
  lemma {:induction false} RedeliveryIsOnce(t: Table, ev: Event, scan: seq<UserId>, ds: seq<Delivery>)
    requires Covers(scan, t)
    ensures LastSuccess(ds).None? ==> Redeliver(t, ev, scan, ds) == t
    ensures LastSuccess(ds).Some? ==> Redeliver(t, ev, scan, ds) == Reconcile(t, ev, LastSuccess(ds).value, false, scan)
    decreases |ds|
  {
    if ds != [] {
      var prefix := ds[..|ds| - 1];
      var d := ds[|ds| - 1];
      RedeliveryIsOnce(t, ev, scan, prefix);
      if !d.fault && LastSuccess(prefix).Some? {
        ReconcileLaterWins(t, ev, LastSuccess(prefix).value, d.now, scan);
      }
    }
  }

  // ---------------------------------------------------------------------------
  // Grant and revoke for the same user, in either order

  /** A cancellation processed after the purchase leaves the user without premium, its ids kept. */
  lemma GrantThenRevoke(t: Table, session: EventObject, now1: Timestamp, now2: Timestamp, scan: seq<UserId>)
    requires Covers(scan, t)
    requires Truthy(UserIdOf(session)) && UserIdOf(session).value in t
    requires forall k :: k in t && k != UserIdOf(session).value ==> t[k].stripeCustomerId != Some(session.customer)
    ensures var u := UserIdOf(session).value;
            var after := RevokeTable(GrantTable(t, session, now1, false), session.customer, now2, false, scan);
            && !after[u].isPremium
            && after[u].premiumExpiryDate == Some(now2)
            && after[u].stripeCustomerId == Some(session.customer)
            && after[u].stripeSubscriptionId == Some(session.subscription)
            && forall k :: k in t && k != u ==> after[k] == t[k]
  {
    var u := UserIdOf(session).value;
    var t1 := GrantTable(t, session, now1, false);
    assert Matches(t1, u, session.customer);
    assert FirstMatch(scan, t1, session.customer) == Some(u);
  }

  /**
   * Without that condition the cancellation may reach another document: "a"
   * already carries the customer id and comes first in the store's order, so
   * revoking after "b"'s purchase revokes "a" and leaves "b" premium.
   */
  lemma GrantThenRevokeSharedCustomer()
    ensures var a := UserRecord(true, None, Some(StripeTag), Some("cus_1"), Some("sub_0"), Some(1), map[]);
            var b := UserRecord(false, None, None, None, None, None, map[]);
            var t := map["a" := a, "b" := b];
            var session := EventObject(Some(map["userId" := "b"]), "cus_1", "sub_1");
            var after := RevokeTable(GrantTable(t, session, 2, false), "cus_1", 3, false, ["a", "b"]);
            after["b"].isPremium && !after["a"].isPremium
  {
    var a := UserRecord(true, None, Some(StripeTag), Some("cus_1"), Some("sub_0"), Some(1), map[]);
    var b := UserRecord(false, None, None, None, None, None, map[]);
    var session := EventObject(Some(map["userId" := "b"]), "cus_1", "sub_1");
    assert UserIdOf(session) == Some("b");
    var t1 := GrantTable(map["a" := a, "b" := b], session, 2, false);
    assert t1["a"] == a;
    assert FirstMatch(["a", "b"], t1, "cus_1") == Some("a");
  }

  /** A purchase processed after a cancellation leaves the user with premium. */
  lemma RevokeThenGrant(t: Table, session: EventObject, now1: Timestamp, now2: Timestamp, scan: seq<UserId>)
    requires Covers(scan, t)
    requires Truthy(UserIdOf(session)) && UserIdOf(session).value in t
    ensures var u := UserIdOf(session).value;
            var after := GrantTable(RevokeTable(t, session.customer, now1, false, scan), session, now2, false);
            && after[u].isPremium
            && after[u].premiumExpiryDate == None
            && after[u].updatedAt == Some(now2)
  {
  }

  // ---------------------------------------------------------------------------
  // End-to-end scenarios

  /** An existing user `u1` buys, then cancels. */
  lemma PurchaseThenCancellation()
    ensures var before := UserRecord(false, None, None, None, None, None, map["email" := "a@b.c"]);
            var t := map["u1" := before];
            var session := EventObject(Some(map["userId" := "u1"]), "cus_1", "sub_1");
            var t1 := Reconcile(t, Event(CheckoutCompleted, session), 10, false, ["u1"]);
            var t2 := Reconcile(t1, Event(SubscriptionDeleted, EventObject(None, "cus_1", "")), 20, false, ["u1"]);
            && t1["u1"] == UserRecord(true, None, Some("stripe"), Some("cus_1"), Some("sub_1"), Some(10), map["email" := "a@b.c"])
            && t2["u1"] == UserRecord(false, Some(20), Some("stripe"), Some("cus_1"), Some("sub_1"), Some(20), map["email" := "a@b.c"])
  {
    var before := UserRecord(false, None, None, None, None, None, map["email" := "a@b.c"]);
    var session := EventObject(Some(map["userId" := "u1"]), "cus_1", "sub_1");
    assert UserIdOf(session) == Some("u1");
    var t1 := Reconcile(map["u1" := before], Event(CheckoutCompleted, session), 10, false, ["u1"]);
    assert FirstMatch(["u1"], t1, "cus_1") == Some("u1");
  }

  /** A purchase for a user id with no document writes nothing. */
  lemma PurchaseForMissingUser(t: Table, session: EventObject, now: Timestamp, scan: seq<UserId>)
    requires Covers(scan, t)
    requires UserIdOf(session).Some? && UserIdOf(session).value !in t
    ensures Reconcile(t, Event(CheckoutCompleted, session), now, false, scan) == t
  {
  }
}
