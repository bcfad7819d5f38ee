/** How the two entry points differ, and where they agree. */
module Deployments {
  import opened Wrappers
  import opened JsText
  import Checkout
  import ServerNode
  import NetlifyApi

  /** Every url the server captures the raw body for, the serverless function captures too. */
  lemma ServerCaptureImpliesNetlifyCapture(originalUrl: string, buf: string)
    ensures ServerNode.RawBody(originalUrl, buf).Some? ==> NetlifyApi.RawBody(originalUrl, buf) == ServerNode.RawBody(originalUrl, buf)
  {
    if StartsWith(originalUrl, ServerNode.WebhookPath) {
      assert OccursAt(originalUrl, NetlifyApi.WebhookPath, 0);
    }
  }

  /** The converse fails: a prefixed route such as `/api/webhook` is captured only by the serverless function. */
  lemma PrefixedRouteCapturedOnlyByNetlify()
    ensures ServerNode.RawBody("/api/webhook", "{}") == None
    ensures NetlifyApi.RawBody("/api/webhook", "{}") == Some("{}")
  {
    assert "/api/webhook"[1] != ServerNode.WebhookPath[1];
    assert OccursAt("/api/webhook", NetlifyApi.WebhookPath, 4);
  }

  /** With `DOMAIN` set, both entry points ask the provider for the same session. */
  lemma SameSessionWhenDomainSet(body: Checkout.CheckoutBody, domainEnv: Option<string>, urlEnv: Option<string>, create: Checkout.CreateSession)
    requires Truthy(domainEnv)
    ensures ServerNode.CreateCheckoutSession(body, domainEnv, create).created
         == NetlifyApi.CreateCheckoutSession(body, domainEnv, urlEnv, create).created
  {
  }
}
