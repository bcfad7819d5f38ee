/** What is particular to the serverless function (netlify/functions/api.js). */
module NetlifyApi {
  import opened Wrappers
  import opened JsText
  import Checkout
  import Webhook

  const WebhookPath := "/webhook"

  /** The JSON body parser keeps the raw body for every url that contains the webhook path anywhere. */
  function RawBody(originalUrl: string, buf: string): (r: Option<string>)
    ensures r.Some? <==> exists i :: OccursAt(originalUrl, WebhookPath, i)
    ensures r.Some? ==> r.value == buf
  {
    if Includes(originalUrl, WebhookPath) then Some(buf) else None
  }

  /** `DOMAIN || URL`: the first environment value if it is truthy, else the second as it stands. */
  function CheckoutDomain(domainEnv: Option<string>, urlEnv: Option<string>): (d: Option<string>)
    ensures Truthy(domainEnv) ==> d == domainEnv
    ensures !Truthy(domainEnv) ==> d == urlEnv
  {
    if Truthy(domainEnv) then domainEnv else urlEnv
  }

  /** `/api/create-checkout-session`: success answers `{ url: session.url }` with status 200. */
  function CreateCheckoutSession(body: Checkout.CheckoutBody, domainEnv: Option<string>, urlEnv: Option<string>,
                                 create: Checkout.CreateSession): (o: Checkout.Outcome)
    ensures o.reply.Json?
    ensures o.reply.status == 200 <==> o.reply.body.UrlBody?
    ensures o.reply.body.UrlBody? ==> |o.created| == 1 && create(o.created[0]) == Success(o.reply.body.url)
    ensures o.created != [] ==>
              && o.created[0].successUrl == Interpolate(CheckoutDomain(domainEnv, urlEnv)) + Checkout.SuccessPath
              && o.created[0].cancelUrl == Interpolate(CheckoutDomain(domainEnv, urlEnv)) + Checkout.CancelPath
  {
    Checkout.CreateCheckoutSession(body, CheckoutDomain(domainEnv, urlEnv), create, Checkout.UrlInBody)
  }

  /** `/api/webhook`: the shared handler, fed the raw body this function's parser captured. */
  method HandleWebhookRoute(db: Webhook.UsersCollection, originalUrl: string, buf: string, signature: Option<string>, body: Webhook.Event,
                            secret: Option<string>, constructEvent: Webhook.ConstructEvent,
                            now: Webhook.Timestamp, fault: bool, scan: seq<Webhook.UserId>) returns (status: nat)
    requires Webhook.Covers(scan, db.users)
    modifies db
    ensures var req := Webhook.WebhookRequest(RawBody(originalUrl, buf), signature, body);
            && (status == 400 <==> Truthy(secret) && constructEvent(req.rawBody, signature, secret.value).None?)
            && (status == 400 ==> db.users == old(db.users))
            && (status == 200 ==> db.users == Webhook.Reconcile(old(db.users), Webhook.Authenticate(req, secret, constructEvent).value, now, fault, scan))
  {
    var req := Webhook.WebhookRequest(RawBody(originalUrl, buf), signature, body);
    status := Webhook.HandleWebhook(db, req, secret, constructEvent, now, fault, scan);
  }
}
