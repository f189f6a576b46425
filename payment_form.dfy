/**
 * `display` of the payment form: the sandbox guard, then a PaymentIntents
 * purchase (primary strategy), then a hosted Checkout session (fallback),
 * then the generic error message.
 */
module PaymentForm {
  import opened Optional
  import opened Decimal
  import opened Urls
  import opened Billing
  import opened UnitAmount

  /** The placeholder Stripe replaces with the Checkout session id when it redirects back. */
  const SessionPlaceholder := "{CHECKOUT_SESSION_ID}"

  /** The parameters of the PaymentIntents `purchase`. */
  datatype PurchaseRequest = PurchaseRequest(
    amount: string, currency: string, description: string,
    returnUrl: string, cancelUrl: string, confirm: bool, paymentMethodTypes: seq<string>)

  /** One Checkout line item: `price_data` (currency, product name, unit amount in cents) and `quantity`. */
  datatype LineItem = LineItem(currency: string, productName: string, unitAmount: int, quantity: int)

  /** The parameters of the Checkout `purchase`. */
  datatype CheckoutRequest = CheckoutRequest(
    lineItems: seq<LineItem>, mode: string, successUrl: string, cancelUrl: string, paymentMethodTypes: seq<string>)

  /** What the PaymentIntents purchase's `send()` produced. */
  datatype PurchaseResponse = PurchaseThrew | PurchaseSent(isRedirect: bool, redirectUrl: string)

  /** What the Checkout purchase's `send()` produced; `dataUrl` is `getData()['url']` when set. */
  datatype CheckoutResponse =
    | CheckoutThrew
    | CheckoutSent(isRedirect: bool, redirectUrl: string, isSuccessful: bool, dataUrl: Option<string>)

  /** A strategy's verdict: a URL to send the browser to, nothing actionable, or a failure. */
  datatype StrategyResult = Redirect(url: string) | NoAction | Failed

  /** The form's one visible effect. */
  datatype FormPage = SandboxNotice | RedirectTo(url: string) | ErrorNotice

  /** The page, and the purchase requests that were attempted. */
  datatype DisplayOutcome = DisplayOutcome(page: FormPage, purchase: Option<PurchaseRequest>, checkout: Option<CheckoutRequest>)

  /** The plugin's return route for a queued payment: the route with `queuedPaymentId`. */
  function ReturnUrl(returnRoute: string, payment: QueuedPayment): Url {
    Url(returnRoute, [("queuedPaymentId", NatToString(payment.id))])
  }

  /** The primary request: the amount as "D.DD", card payments, confirmed at once. */
  function BuildPurchase(payment: QueuedPayment, returnRoute: string, indexUrl: string): (r: PurchaseRequest)
    ensures r.amount == FormatCents(payment.amountCents) && ParseCents(r.amount) == Some(payment.amountCents)
    ensures r.currency == payment.currencyCode && r.description == payment.itemName
    ensures r.returnUrl == Render(ReturnUrl(returnRoute, payment)) && r.cancelUrl == indexUrl
    ensures r.confirm && r.paymentMethodTypes == ["card"]
  {
    FormatCentsRoundTrip(payment.amountCents);
    PurchaseRequest(FormatCents(payment.amountCents), payment.currencyCode, payment.itemName,
                    Render(ReturnUrl(returnRoute, payment)), indexUrl, true, ["card"])
  }

  /**
   * The fallback request: one line item of quantity 1 priced at
   * `(int)($amount * 100)` (see `UnitAmount`), mode "payment"; the success URL is the return URL with the session
   * placeholder added, the cancel URL the same return URL with `status=cancel`.
   */
  function BuildCheckout(payment: QueuedPayment, returnRoute: string): (r: CheckoutRequest)
    ensures |r.lineItems| == 1
    ensures r.lineItems[0] == LineItem(payment.currencyCode, payment.itemName, LineItemCents(payment.amountCents), 1)
    ensures 0 < payment.amountCents <= MaxCents ==>
      r.lineItems[0].unitAmount == payment.amountCents || r.lineItems[0].unitAmount == payment.amountCents - 1
    ensures r.mode == "payment" && r.paymentMethodTypes == ["card"]
    ensures r.successUrl == Render(WithParam(ReturnUrl(returnRoute, payment), "session_id", SessionPlaceholder))
    ensures r.cancelUrl == Render(WithParam(ReturnUrl(returnRoute, payment), "status", "cancel"))
  {
    var id := NatToString(payment.id);
    AppendParam(ReturnUrl(returnRoute, payment), "session_id", SessionPlaceholder);
    assert WithParam(ReturnUrl(returnRoute, payment), "status", "cancel").query
        == [("queuedPaymentId", id), ("status", "cancel")];
    CheckoutRequest(
      [LineItem(payment.currencyCode, payment.itemName, LineItemCents(payment.amountCents), 1)],
      "payment",
      Render(ReturnUrl(returnRoute, payment)) + "&session_id={CHECKOUT_SESSION_ID}",
      Render(Url(returnRoute, [("queuedPaymentId", id), ("status", "cancel")])),
      ["card"])
  }

  /** A queued payment of 19.99 is offered to Checkout at 19.98, one cent short. */
  lemma CheckoutLosesACent(payment: QueuedPayment, returnRoute: string)
    requires payment.amountCents == 1999
    ensures BuildCheckout(payment, returnRoute).lineItems[0].unitAmount == 1998
  {
    UnitAmountLosesACent();
  }

  /** The primary strategy: redirect when the response asks for one; an exception is a failure. */
  function PurchaseResult(response: PurchaseResponse): (r: StrategyResult)
    ensures r.Redirect? <==> response.PurchaseSent? && response.isRedirect
    ensures r.Redirect? ==> r.url == response.redirectUrl
    ensures r.Failed? <==> response.PurchaseThrew?
  {
    match response
    case PurchaseThrew => Failed
    case PurchaseSent(isRedirect, url) => if isRedirect then Redirect(url) else NoAction
  }

  /**
   * The fallback strategy: `getRedirectUrl()` when the response redirects,
   * else `data['url']` when it succeeded with one; anything else fails.
   */
  function CheckoutResult(response: CheckoutResponse): (r: StrategyResult)
    ensures !r.NoAction?
    ensures r.Redirect? <==>
      response.CheckoutSent? && (response.isRedirect || (response.isSuccessful && response.dataUrl.Some?))
    ensures response.CheckoutSent? && response.isRedirect ==> r == Redirect(response.redirectUrl)
    ensures response.CheckoutSent? && !response.isRedirect && r.Redirect? ==> r.url == response.dataUrl.value
  {
    match response
    case CheckoutThrew => Failed
    case CheckoutSent(isRedirect, redirectUrl, isSuccessful, dataUrl) =>
      if isRedirect then Redirect(redirectUrl)
      else if isSuccessful && dataUrl.Some? then Redirect(dataUrl.value)
      else Failed
  }

  /**
   * `display`. `purchase` and `checkout` stand for sending a request through
   * the PaymentIntents and the Checkout gateway.
   */
  function Display(sandbox: bool, payment: QueuedPayment, returnRoute: string, indexUrl: string,
                   purchase: PurchaseRequest -> PurchaseResponse,
                   checkout: CheckoutRequest -> CheckoutResponse): (r: DisplayOutcome)
    // sandbox: the sandbox message, and no gateway at all
    ensures sandbox <==> r.page == SandboxNotice
    ensures sandbox ==> r.purchase.None? && r.checkout.None?
    // otherwise the primary strategy is always tried first
    ensures !sandbox ==> r.purchase == Some(BuildPurchase(payment, returnRoute, indexUrl))
    // a primary redirect is followed and the fallback never attempted
    ensures !sandbox && PurchaseResult(purchase(BuildPurchase(payment, returnRoute, indexUrl))).Redirect? ==>
      r.checkout.None? &&
      r.page == RedirectTo(PurchaseResult(purchase(BuildPurchase(payment, returnRoute, indexUrl))).url)
    // no primary redirect (none asked for, or an exception): the fallback decides
    ensures !sandbox && !PurchaseResult(purchase(BuildPurchase(payment, returnRoute, indexUrl))).Redirect? ==>
      r.checkout == Some(BuildCheckout(payment, returnRoute)) &&
      r.page == match CheckoutResult(checkout(BuildCheckout(payment, returnRoute)))
                case Redirect(url) => RedirectTo(url)
                case _ => ErrorNotice
  {
    if sandbox then DisplayOutcome(SandboxNotice, None, None)
    else
      var request := BuildPurchase(payment, returnRoute, indexUrl);
      match PurchaseResult(purchase(request))
      case Redirect(url) => DisplayOutcome(RedirectTo(url), Some(request), None)
      case _ =>
        var fallback := BuildCheckout(payment, returnRoute);
        match CheckoutResult(checkout(fallback))
        case Redirect(url) => DisplayOutcome(RedirectTo(url), Some(request), Some(fallback))
        case _ => DisplayOutcome(ErrorNotice, Some(request), Some(fallback))
  }
}
