/**
 * Webhook-driven entitlement reconciliation, shared by the always-on server
 * (server/node/server.js) and the serverless function (netlify/functions/api.js):
 * both authenticate an inbound payment event, dispatch on its type, and either
 * grant premium to the user named in a completed checkout session or revoke it
 * from the user whose customer id a deleted subscription carries.
 *
 * The users collection of the document store is a class holding a map from
 * document id to record; the pure functions below say what one event does to
 * that map, and the methods are proved to do exactly that.
 */
module Webhook {
  import opened Wrappers
  import opened JsText

  type UserId = string

  /** A server timestamp; the store assigns it, so the model takes it as a parameter. */
  type Timestamp = nat

  /** The provider tag written to `subscriptionType` on a grant. */
  const StripeTag := "stripe"
  const CheckoutCompleted := "checkout.session.completed"
  const SubscriptionDeleted := "customer.subscription.deleted"

  /**
   * A user document. The six entitlement fields are the ones this flow writes;
   * those that may be absent before the first grant are optional (`None` stands for
   * both absent and null). `rest` holds every other field of the document, which the flow never writes.
   */
  datatype UserRecord = UserRecord(
    isPremium: bool,
    premiumExpiryDate: Option<Timestamp>,
    subscriptionType: Option<string>,
    stripeCustomerId: Option<string>,
    stripeSubscriptionId: Option<string>,
    updatedAt: Option<Timestamp>,
    rest: map<string, string>)

  /** The users collection: document id to document. */
  type Table = map<UserId, UserRecord>

  /**
   * `data.object` of an event: a checkout session (metadata, customer, subscription)
   * or a subscription (customer). `metadata` is `None` when the object has none.
   */
  datatype EventObject = EventObject(metadata: Option<map<string, string>>, customer: string, subscription: string)

  datatype Event = Event(eventType: string, dataObject: EventObject)

  /** `session.metadata?.userId`: absent when the session has no metadata or the metadata has no `userId` key. */
  function UserIdOf(session: EventObject): (r: Option<string>)
    ensures r.Some? <==> session.metadata.Some? && "userId" in session.metadata.value
    ensures r.Some? ==> r.value == session.metadata.value["userId"]
  {
    if session.metadata.Some? && "userId" in session.metadata.value then Some(session.metadata.value["userId"]) else None
  }

  // ---------------------------------------------------------------------------
  // What a grant and a revoke write, stated field by field

  /** `g` is `r` after a grant from a session with these ids at time `now`. */
  predicate GrantedFrom(r: UserRecord, g: UserRecord, customer: string, subscription: string, now: Timestamp) {
    && g.isPremium
    && g.premiumExpiryDate == None
    && g.subscriptionType == Some(StripeTag)
    && g.stripeCustomerId == Some(customer)
    && g.stripeSubscriptionId == Some(subscription)
    && g.updatedAt == Some(now)
    && g.rest == r.rest
  }

  /** `v` is `r` after a revoke at time `now`: three fields written, the correlation ids kept. */
  predicate RevokedFrom(r: UserRecord, v: UserRecord, now: Timestamp) {
    && !v.isPremium
    && v.premiumExpiryDate == Some(now)
    && v.updatedAt == Some(now)
    && v.subscriptionType == r.subscriptionType
    && v.stripeCustomerId == r.stripeCustomerId
    && v.stripeSubscriptionId == r.stripeSubscriptionId
    && v.rest == r.rest
  }

  /** The field set passed to the store's `update` by each handler. */
  datatype Patch = GrantPatch(customer: string, subscription: string, now: Timestamp) | RevokePatch(now: Timestamp)

  /** How the store merges an update's fields into a document. */
  function Apply(r: UserRecord, p: Patch): (u: UserRecord)
    ensures p.GrantPatch? ==> GrantedFrom(r, u, p.customer, p.subscription, p.now)
    ensures p.RevokePatch? ==> RevokedFrom(r, u, p.now)
  {
    match p
    case GrantPatch(customer, subscription, now) =>
      r.(isPremium := true, premiumExpiryDate := None, subscriptionType := Some(StripeTag),
         stripeCustomerId := Some(customer), stripeSubscriptionId := Some(subscription), updatedAt := Some(now))
    case RevokePatch(now) =>
      r.(isPremium := false, premiumExpiryDate := Some(now), updatedAt := Some(now))
  }

  // ---------------------------------------------------------------------------
  // Grant (`checkout.session.completed`)

  /**
   * A grant writes the document named by a truthy `metadata.userId`. It writes
   * nothing when the session has no such id, when no such document exists (the
   * store's `update` fails) or when the store call fails for another reason
   * (`fault`); each failure is caught and logged.
   */
  predicate GrantWrites(t: Table, session: EventObject, fault: bool) {
    !fault && Truthy(UserIdOf(session)) && UserIdOf(session).value in t
  }

  /** The users collection after the grant handler has run. */
  function GrantTable(t: Table, session: EventObject, now: Timestamp, fault: bool): (t': Table)
    ensures t'.Keys == t.Keys
    ensures !GrantWrites(t, session, fault) ==> t' == t
    ensures GrantWrites(t, session, fault) ==>
      var u := UserIdOf(session).value;
      && GrantedFrom(t[u], t'[u], session.customer, session.subscription, now)
      && forall k :: k in t && k != u ==> t'[k] == t[k]
  {
    if GrantWrites(t, session, fault) then
      var u := UserIdOf(session).value;
      t[u := Apply(t[u], GrantPatch(session.customer, session.subscription, now))]
    else t
  }

  // ---------------------------------------------------------------------------
  // Revoke (`customer.subscription.deleted`)

  /** Document `k` exists and carries `customer` as its `stripeCustomerId`. */
  predicate Matches(t: Table, k: UserId, customer: string) {
    k in t && t[k].stripeCustomerId == Some(customer)
  }

  /**
   * `scan` is an order in which the store may visit the collection: it lists every
   * document. The store promises nothing more about which match `limit(1)` returns.
   */
  predicate Covers(scan: seq<UserId>, t: Table) {
    forall k :: k in t ==> k in scan
  }

  /** The answer of `where('stripeCustomerId', '==', customer).limit(1)` when the store visits documents in `scan` order. */
  function FirstMatch(scan: seq<UserId>, t: Table, customer: string): (r: Option<UserId>)
    ensures r.Some? ==> Matches(t, r.value, customer) && r.value in scan
    ensures r.None? ==> forall i :: 0 <= i < |scan| ==> !Matches(t, scan[i], customer)
  {
    if scan == [] then None
    else if Matches(t, scan[0], customer) then Some(scan[0])
    else FirstMatch(scan[1..], t, customer)
  }

  /** The users collection after the revoke handler has run. */
  function RevokeTable(t: Table, customer: string, now: Timestamp, fault: bool, scan: seq<UserId>): (t': Table)
    requires Covers(scan, t)
    ensures t'.Keys == t.Keys
    ensures fault ==> t' == t
    ensures (forall k :: k in t ==> !Matches(t, k, customer)) ==> t' == t
    ensures !fault && (exists k :: Matches(t, k, customer)) ==>
      exists k :: Matches(t, k, customer) && RevokedFrom(t[k], t'[k], now) &&
        forall j :: j in t && j != k ==> t'[j] == t[j]
  {
    if fault then t
    else match FirstMatch(scan, t, customer)
      case None => t
      case Some(k) => t[k := Apply(t[k], RevokePatch(now))]
  }

  // ---------------------------------------------------------------------------
  // Dispatch

  /** The users collection after an authenticated event has been dispatched. */
  function Reconcile(t: Table, ev: Event, now: Timestamp, fault: bool, scan: seq<UserId>): (t': Table)
    requires Covers(scan, t)
    ensures t'.Keys == t.Keys
    ensures fault ==> t' == t
    ensures ev.eventType != CheckoutCompleted && ev.eventType != SubscriptionDeleted ==> t' == t
    ensures ev.eventType == CheckoutCompleted ==> t' == GrantTable(t, ev.dataObject, now, fault)
    ensures ev.eventType == SubscriptionDeleted ==> t' == RevokeTable(t, ev.dataObject.customer, now, fault, scan)
  {
    var afterGrant := if ev.eventType == CheckoutCompleted then GrantTable(t, ev.dataObject, now, fault) else t;
    if ev.eventType == SubscriptionDeleted then RevokeTable(afterGrant, ev.dataObject.customer, now, fault, scan) else afterGrant
  }

  // ---------------------------------------------------------------------------
  // Authenticity gate

  /** What the webhook route receives: the captured raw body (if any), the signature header and the parsed JSON body. */
  datatype WebhookRequest = WebhookRequest(rawBody: Option<string>, signature: Option<string>, body: Event)

  /**
   * The payment library's `webhooks.constructEvent(rawBody, signature, secret)`:
   * the verified event, or `None` when it throws.
   */
  type ConstructEvent = (Option<string>, Option<string>, string) -> Option<Event>

  /** The event the handler dispatches on, or `None` when signature verification fails. */
  function Authenticate(req: WebhookRequest, secret: Option<string>, constructEvent: ConstructEvent): (r: Option<Event>)
    ensures r.None? ==> Truthy(secret)
    ensures Truthy(secret) ==> r == constructEvent(req.rawBody, req.signature, secret.value)
    ensures !Truthy(secret) ==> r == Some(req.body)
  {
    if Truthy(secret) then constructEvent(req.rawBody, req.signature, secret.value) else Some(req.body)
  }

  /** The users collection of the document store. */
  class UsersCollection {
    var users: Table

    constructor (initial: Table)
      ensures users == initial
    {
      users := initial;
    }

    /** `doc(id).update(fields)`: fails, changing nothing, when the document does not exist or the store faults. */
    method Update(id: UserId, patch: Patch, fault: bool) returns (ok: bool)
      modifies this
      ensures ok <==> !fault && id in old(users)
      ensures users == if ok then old(users)[id := Apply(old(users)[id], patch)] else old(users)
    {
      ok := !fault && id in users;
      if ok {
        users := users[id := Apply(users[id], patch)];
      }
    }

    /** `where('stripeCustomerId', '==', customer).limit(1).get()`: at most one document id, or a failure. */
    method QueryByCustomer(customer: string, scan: seq<UserId>, fault: bool) returns (r: Result<seq<UserId>, string>)
      requires Covers(scan, users)
      ensures r.Failure? <==> fault
      ensures r.Success? ==> |r.value| <= 1
      ensures r.Success? ==> (r.value == [] <==> forall k :: k in users ==> !Matches(users, k, customer))
      ensures r.Success? && r.value != [] ==> Matches(users, r.value[0], customer) && Some(r.value[0]) == FirstMatch(scan, users, customer)
    {
      if fault {
        return Failure("store unavailable");
      }
      match FirstMatch(scan, users, customer)
      case None => r := Success([]);
      case Some(k) => r := Success([k]);
    }

    /** The grant handler: an absolute overwrite of six fields of the document named by `metadata.userId`. */
    method Grant(session: EventObject, now: Timestamp, fault: bool)
      modifies this
      ensures users == GrantTable(old(users), session, now, fault)
    {
      var userId := UserIdOf(session);
      if Truthy(userId) {
        var ok := Update(userId.value, GrantPatch(session.customer, session.subscription, now), fault);
        // a failed update is caught and logged
      }
    }

    /** The revoke handler: overwrites three fields of at most one document carrying the subscription's customer id. */
    method Revoke(subscription: EventObject, now: Timestamp, fault: bool, scan: seq<UserId>)
      requires Covers(scan, users)
      modifies this
      ensures users == RevokeTable(old(users), subscription.customer, now, fault, scan)
    {
      var customerId := subscription.customer;
      var snapshot := QueryByCustomer(customerId, scan, fault);
      if snapshot.Success? && snapshot.value != [] {
        var userDoc := snapshot.value[0];
        var ok := Update(userDoc, RevokePatch(now), fault);
      }
    }
  }

  /**
   * The webhook route. With a truthy secret the event is the verified one and a
   * failed verification answers 400 before anything is written; without a secret
   * the event is taken unverified from the parsed body. Every authenticated
   * event is dispatched and answered with 200, whatever the handlers did.
   */
  method HandleWebhook(db: UsersCollection, req: WebhookRequest, secret: Option<string>, constructEvent: ConstructEvent,
                       now: Timestamp, fault: bool, scan: seq<UserId>) returns (status: nat)
    requires Covers(scan, db.users)
    modifies db
    ensures status == 400 || status == 200
    ensures status == 400 <==> Truthy(secret) && constructEvent(req.rawBody, req.signature, secret.value).None?
    ensures !Truthy(secret) ==> db.users == Reconcile(old(db.users), req.body, now, fault, scan)
    ensures status == 400 ==> db.users == old(db.users)
    ensures status == 200 ==>
              && Authenticate(req, secret, constructEvent).Some?
              && db.users == Reconcile(old(db.users), Authenticate(req, secret, constructEvent).value, now, fault, scan)
  {
    var data: EventObject;
    var eventType: string;
    if Truthy(secret) {
      var event := constructEvent(req.rawBody, req.signature, secret.value);
      if event.None? {
        return 400;
      }
      data := event.value.dataObject;
      eventType := event.value.eventType;
    } else {
      data := req.body.dataObject;
      eventType := req.body.eventType;
    }

    if eventType == CheckoutCompleted {
      db.Grant(data, now, fault);
    }
    if eventType == SubscriptionDeleted {
      db.Revoke(data, now, fault, scan);
    }
    status := 200;
  }
}
