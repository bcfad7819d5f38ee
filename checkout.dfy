/**
 * The `/create-checkout-session` endpoint shared by both entry points: validate
 * the request, build the subscription checkout parameters, hand them to the
 * payment provider, and shape the reply.
 */
module Checkout {
  import opened Wrappers
  import opened JsText

  const UserIdRequired := "User ID is required"
  const SubscriptionMode := "subscription"
  const SuccessPath := "/success.html?session_id={CHECKOUT_SESSION_ID}"
  const CancelPath := "/canceled.html"

  /** The JSON request body `{ priceId, userId }`; either may be missing. */
  datatype CheckoutBody = CheckoutBody(priceId: Option<string>, userId: Option<string>)

  datatype LineItem = LineItem(price: Option<string>, quantity: nat)

  /** The argument of the provider's `checkout.sessions.create`. */
  datatype SessionParams = SessionParams(
    mode: string,
    lineItems: seq<LineItem>,
    metadata: map<string, string>,
    successUrl: string,
    cancelUrl: string)

  /** Response bodies: `{ error: { message } }` and `{ url }`. */
  datatype Body = ErrorBody(message: string) | UrlBody(url: string)

  /** An HTTP reply: a JSON body with a status, or a redirect. */
  datatype Reply = Json(status: nat, body: Body) | Redirect(status: nat, location: string)

  /** How a successful session becomes a reply: a 303 redirect (server) or `{ url }` (serverless). */
  datatype SuccessStyle = RedirectToSession | UrlInBody

  /** The provider's `checkout.sessions.create`: the session's url, or the message of the error it throws. */
  type CreateSession = SessionParams -> Result<string, string>

  /** What one call of the endpoint does: its reply and the sessions it asked the provider to create. */
  datatype Outcome = Outcome(reply: Reply, created: seq<SessionParams>)

  /** Validation and parameter building: a missing or empty `userId` is rejected, anything else yields one subscription line item. */
  function SessionRequest(body: CheckoutBody, domainURL: Option<string>): (r: Result<SessionParams, string>)
    ensures r.Failure? <==> !Truthy(body.userId)
    ensures r.Failure? ==> r.error == UserIdRequired
    ensures r.Success? ==>
      && r.value.mode == SubscriptionMode
      && |r.value.lineItems| == 1
      && r.value.lineItems[0].quantity == 1
      && r.value.lineItems[0].price == body.priceId
      && r.value.metadata.Keys == {"userId"}
      && Some(r.value.metadata["userId"]) == body.userId
  {
    if !Truthy(body.userId) then Failure(UserIdRequired)
    else
      var domain := Interpolate(domainURL);
      Success(SessionParams(
        SubscriptionMode,
        [LineItem(body.priceId, 1)],
        map["userId" := body.userId.value],
        domain + SuccessPath,
        domain + CancelPath))
  }

  /** Both return urls are the configured domain followed by a fixed page; the domain can be read back off either. */
  lemma ReturnUrlsShareDomain(body: CheckoutBody, domainURL: Option<string>)
    requires Truthy(body.userId)
    ensures var p := SessionRequest(body, domainURL).value;
            var d := Interpolate(domainURL);
            && p.successUrl[..|d|] == d && p.successUrl[|d|..] == SuccessPath
            && p.cancelUrl[..|d|] == d && p.cancelUrl[|d|..] == CancelPath
            && p.successUrl != p.cancelUrl
  {
    var p := SessionRequest(body, domainURL).value;
    var d := Interpolate(domainURL);
    assert p.successUrl[|d|..] == SuccessPath;
    assert p.cancelUrl[|d|..] == CancelPath;
    assert |p.successUrl| != |p.cancelUrl|;
  }

  /** The endpoint: rejected requests never reach the provider; a provider error is answered with 400 and its message. */
  function CreateCheckoutSession(body: CheckoutBody, domainURL: Option<string>, create: CreateSession, style: SuccessStyle): (o: Outcome)
    ensures !Truthy(body.userId) ==> o == Outcome(Json(400, ErrorBody(UserIdRequired)), [])
    ensures Truthy(body.userId) ==>
      && o.created == [SessionRequest(body, domainURL).value]
      && match create(o.created[0])
         case Failure(message) => o.reply == Json(400, ErrorBody(message))
         case Success(url) =>
           o.reply == (if style == RedirectToSession then Redirect(303, url) else Json(200, UrlBody(url)))
    ensures o.reply.status == 400 <==> !Truthy(body.userId) || create(SessionRequest(body, domainURL).value).Failure?
  {
    match SessionRequest(body, domainURL)
    case Failure(message) => Outcome(Json(400, ErrorBody(message)), [])
    case Success(params) =>
      var reply := match create(params)
        case Failure(message) => Json(400, ErrorBody(message))
        case Success(url) => if style == RedirectToSession then Redirect(303, url) else Json(200, UrlBody(url));
      Outcome(reply, [params])
  }
}
