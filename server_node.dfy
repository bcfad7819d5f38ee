/** What is particular to the always-on server (server/node/server.js). */
module ServerNode {
  import opened Wrappers
  import opened JsText
  import Checkout
  import Webhook

  const WebhookPath := "/webhook"

  /** The JSON body parser keeps the raw body only for urls that start with the webhook path. */
  function RawBody(originalUrl: string, buf: string): (r: Option<string>)
    ensures r.Some? <==> StartsWith(originalUrl, WebhookPath)
    ensures r.Some? ==> r.value == buf
  {
    if StartsWith(originalUrl, WebhookPath) then Some(buf) else None
  }

  /** `/create-checkout-session`: the domain is `DOMAIN` as it stands (possibly undefined); success redirects with 303. */
  function CreateCheckoutSession(body: Checkout.CheckoutBody, domainEnv: Option<string>, create: Checkout.CreateSession): (o: Checkout.Outcome)
    ensures o.reply.Redirect? ==> o.reply.status == 303 && |o.created| == 1
    ensures o.reply.Json? ==> o.reply.status == 400
    ensures o.created != [] ==>
              && o.created[0].successUrl == Interpolate(domainEnv) + Checkout.SuccessPath
              && o.created[0].cancelUrl == Interpolate(domainEnv) + Checkout.CancelPath
  {
    Checkout.CreateCheckoutSession(body, domainEnv, create, Checkout.RedirectToSession)
  }

  /** `/webhook`: the shared handler, fed the raw body this server's parser captured. */
  method HandleWebhookRoute(db: Webhook.UsersCollection, originalUrl: string, buf: string, signature: Option<string>, body: Webhook.Event,
                            secret: Option<string>, constructEvent: Webhook.ConstructEvent,
                            now: Webhook.Timestamp, fault: bool, scan: seq<Webhook.UserId>) returns (status: nat)
    requires Webhook.Covers(scan, db.users)
    modifies db
    ensures var req := Webhook.WebhookRequest(RawBody(originalUrl, buf), signature, body);
            && (status == 400 <==> Truthy(secret) && constructEvent(req.rawBody, signature, secret.value).None?)
            && (status == 400 ==> db.users == old(db.users))
            && (status == 200 ==> db.users == Webhook.Reconcile(old(db.users), Webhook.Authenticate(req, secret, constructEvent).value, now, fault, scan))
  {
    var req := Webhook.WebhookRequest(RawBody(originalUrl, buf), signature, body);
    status := Webhook.HandleWebhook(db, req, secret, constructEvent, now, fault, scan);
  }
}
