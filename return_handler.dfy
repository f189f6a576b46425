/**
 * `handle`: the callback the browser reaches when it comes back from Stripe
 * Checkout. It classifies the request into exactly one outcome and fulfils
 * the queued payment only after an authoritative fetch of the Checkout
 * session reported it paid.
 */
module ReturnHandler {
  import opened Optional
  import opened Php
  import opened Decimal
  import opened Urls
  import opened Billing

  /** What the gateway's `fetchTransaction(...)->send()` produced. */
  datatype FetchResponse =
    | Fetched(isSuccessful: bool, paymentStatus: Value)  // `Null` when the field is absent
    | FetchThrew                                          // the call raised an exception

  /** The page `handle` renders, with the data it assigns to the template. */
  datatype Page =
    | NoPage                                                                      // sandbox: nothing rendered
    | CancelPage(backLink: string, itemName: string, amountCents: int, currency: string)
    | SuccessPage(backLink: string, itemName: string, amountCents: int, currency: string)
    | ErrorPage                                                                   // the generic payment error message

  /**
   * One invocation's effects: the page, whether the queued payment was looked
   * up, the session id the gateway was asked to fetch (if any), and the
   * payment handed to `fulfillQueuedPayment` (if any; at most one per call).
   */
  datatype Outcome = Outcome(page: Page, lookedUp: bool, fetched: Option<string>, fulfilled: Option<QueuedPayment>)

  /** The authoritative verdict: a successful fetch whose `payment_status` is exactly the string "paid". */
  predicate ReportsPaid(response: FetchResponse) {
    response.Fetched? && response.isSuccessful && response.paymentStatus == Str("paid")
  }

  /** The fetch's response settles the payment: fulfil and show success, or show the error. */
  function Settle(payment: QueuedPayment, sessionId: string, response: FetchResponse, pendingPaymentsUrl: string): (r: Outcome)
    ensures r.lookedUp && r.fetched == Some(sessionId)
    ensures r.fulfilled.Some? <==> ReportsPaid(response)
    ensures r.fulfilled.Some? ==>
      r.fulfilled == Some(payment) &&
      r.page == SuccessPage(pendingPaymentsUrl, payment.itemName, payment.amountCents, payment.currencyCode)
    ensures r.fulfilled.None? ==> r.page == ErrorPage
  {
    if response.Fetched? && response.isSuccessful then
      if response.paymentStatus.Str? && response.paymentStatus.s == "paid" then
        Outcome(SuccessPage(pendingPaymentsUrl, payment.itemName, payment.amountCents, payment.currencyCode),
                true, Some(sessionId), Some(payment))
      else Outcome(ErrorPage, true, Some(sessionId), None)
    else Outcome(ErrorPage, true, Some(sessionId), None)
  }

  /**
   * The steps after the queued payment was found: the cancel marker first,
   * then the mandatory `session_id`, then the fetch.
   */
  function Classify(payment: QueuedPayment, vars: map<string, string>, fetch: string -> FetchResponse,
                    dashboardUrl: string, pendingPaymentsUrl: string): (r: Outcome)
    ensures r.lookedUp
    ensures UserVar(vars, "status") == Some("cancel") ==>
      r == Outcome(CancelPage(dashboardUrl, payment.itemName, payment.amountCents, payment.currencyCode), true, None, None)
    ensures UserVar(vars, "status") != Some("cancel") && (UserVar(vars, "session_id").None? || FalsyString(vars["session_id"])) ==>
      r == Outcome(ErrorPage, true, None, None)
    ensures r.fetched.Some? ==>
      UserVar(vars, "status") != Some("cancel") &&
      r.fetched == UserVar(vars, "session_id") &&
      !FalsyString(r.fetched.value)
    ensures r.fulfilled.Some? <==> r.fetched.Some? && ReportsPaid(fetch(r.fetched.value))
    ensures r.fetched.Some? && !ReportsPaid(fetch(r.fetched.value)) ==> r.page == ErrorPage
    // no cancel marker and a usable `session_id`: that session is fetched
    ensures (UserVar(vars, "status") != Some("cancel") && UserVar(vars, "session_id").Some? &&
             !FalsyString(vars["session_id"])) ==>
      r.fetched == UserVar(vars, "session_id")
    ensures r.fulfilled.Some? ==>
      r.fulfilled == Some(payment) &&
      r.page == SuccessPage(pendingPaymentsUrl, payment.itemName, payment.amountCents, payment.currencyCode)
  {
    if UserVar(vars, "status") == Some("cancel") then
      Outcome(CancelPage(dashboardUrl, payment.itemName, payment.amountCents, payment.currencyCode), true, None, None)
    else
      match UserVar(vars, "session_id")
      case None => Outcome(ErrorPage, true, None, None)
      case Some(sessionId) =>
        if FalsyString(sessionId) then Outcome(ErrorPage, true, None, None)
        else Settle(payment, sessionId, fetch(sessionId), pendingPaymentsUrl)
  }

  /**
   * `handle`. `lookup` is the queued-payment DAO's `getById` applied to the
   * `queuedPaymentId` request variable; `fetch` is the Stripe Checkout
   * gateway's session fetch; `vars` are the request variables.
   */
  function Handle(sandbox: bool, vars: map<string, string>, lookup: Option<string> -> Option<QueuedPayment>,
                  fetch: string -> FetchResponse, dashboardUrl: string, pendingPaymentsUrl: string): (r: Outcome)
    // sandbox: return before any lookup, gateway call or fulfilment
    ensures sandbox <==> r.page == NoPage
    ensures sandbox ==> r == Outcome(NoPage, false, None, None)
    // an unknown queued payment: the error page, nothing else
    ensures !sandbox && lookup(UserVar(vars, "queuedPaymentId")).None? ==> r == Outcome(ErrorPage, true, None, None)
    // fulfilment needs a known payment and an authoritative fetch reporting it paid, and then always happens
    ensures r.fulfilled.Some? <==>
      !sandbox && lookup(UserVar(vars, "queuedPaymentId")).Some? && r.fetched.Some? && ReportsPaid(fetch(r.fetched.value))
    // a known payment and the cancel marker: the cancel page, with no fetch and no fulfilment
    ensures !sandbox && lookup(UserVar(vars, "queuedPaymentId")).Some? && UserVar(vars, "status") == Some("cancel") ==>
      var payment := lookup(UserVar(vars, "queuedPaymentId")).value;
      r == Outcome(CancelPage(dashboardUrl, payment.itemName, payment.amountCents, payment.currencyCode), true, None, None)
    // a known payment without the cancel marker and without a usable `session_id`: the error page, no fetch
    ensures (!sandbox && lookup(UserVar(vars, "queuedPaymentId")).Some? && UserVar(vars, "status") != Some("cancel") &&
             (UserVar(vars, "session_id").None? || FalsyString(vars["session_id"]))) ==>
      r == Outcome(ErrorPage, true, None, None)
    // a fetch always uses the request's own `session_id`
    ensures r.fetched.Some? ==> r.fetched == UserVar(vars, "session_id")
    // a known payment, no cancel marker and a usable `session_id`: that session is fetched
    ensures (!sandbox && lookup(UserVar(vars, "queuedPaymentId")).Some? && UserVar(vars, "status") != Some("cancel") &&
             UserVar(vars, "session_id").Some? && !FalsyString(vars["session_id"])) ==>
      r.fetched == UserVar(vars, "session_id")
    ensures r.fulfilled.Some? ==> r.fulfilled == lookup(UserVar(vars, "queuedPaymentId"))
    ensures r.page.SuccessPage? <==> r.fulfilled.Some?
    // the success page shows the pending-payments link and the fulfilled payment's own data
    ensures r.page.SuccessPage? ==>
      var p := lookup(UserVar(vars, "queuedPaymentId")).value;
      r.page == SuccessPage(pendingPaymentsUrl, p.itemName, p.amountCents, p.currencyCode)
    // a fetch that did not report the session paid: the error page
    ensures r.fetched.Some? && !ReportsPaid(fetch(r.fetched.value)) ==> r.page == ErrorPage
  {
    if sandbox then Outcome(NoPage, false, None, None)
    else
      match lookup(UserVar(vars, "queuedPaymentId"))
      case None => Outcome(ErrorPage, true, None, None)
      case Some(payment) => Classify(payment, vars, fetch, dashboardUrl, pendingPaymentsUrl)
  }

  /**
   * Only the correlation variables steer `handle`: any other request
   * variable (a forged "paid" status, say) cannot change the outcome.
   */
  lemma OnlyCorrelationVarsMatter(
    sandbox: bool, vars: map<string, string>, forged: map<string, string>,
    lookup: Option<string> -> Option<QueuedPayment>, fetch: string -> FetchResponse,
    dashboardUrl: string, pendingPaymentsUrl: string)
    requires UserVar(forged, "queuedPaymentId") == UserVar(vars, "queuedPaymentId")
    requires UserVar(forged, "status") == UserVar(vars, "status")
    requires UserVar(forged, "session_id") == UserVar(vars, "session_id")
    ensures Handle(sandbox, forged, lookup, fetch, dashboardUrl, pendingPaymentsUrl)
         == Handle(sandbox, vars, lookup, fetch, dashboardUrl, pendingPaymentsUrl)
  {
  }

  /**
   * Nothing ties the paid session to the payment: one paid Checkout session,
   * returned once with each of two payments' ids, fulfils both.
   */
  lemma OnePaidSessionFulfilsTwoPayments(
    p1: QueuedPayment, p2: QueuedPayment, vars1: map<string, string>, vars2: map<string, string>,
    lookup: Option<string> -> Option<QueuedPayment>, fetch: string -> FetchResponse,
    sessionId: string, dashboardUrl: string, pendingPaymentsUrl: string)
    requires p1.id != p2.id
    requires lookup(UserVar(vars1, "queuedPaymentId")) == Some(p1)
    requires lookup(UserVar(vars2, "queuedPaymentId")) == Some(p2)
    requires UserVar(vars1, "status").None? && UserVar(vars2, "status").None?
    requires UserVar(vars1, "session_id") == Some(sessionId) && UserVar(vars2, "session_id") == Some(sessionId)
    requires !FalsyString(sessionId) && ReportsPaid(fetch(sessionId))
    ensures Handle(false, vars1, lookup, fetch, dashboardUrl, pendingPaymentsUrl).fulfilled == Some(p1)
    ensures Handle(false, vars2, lookup, fetch, dashboardUrl, pendingPaymentsUrl).fulfilled == Some(p2)
  {
  }

  /**
   * `handle` with the check the fetch makes possible: the session must carry
   * the payment's id as its client reference (`reference` is the
   * `client_reference_id` the fetched session reports), otherwise the error
   * page and no fulfilment; everything else is as in `Handle`.
   */
  function HandleChecked(sandbox: bool, vars: map<string, string>, lookup: Option<string> -> Option<QueuedPayment>,
                         fetch: string -> FetchResponse, reference: string -> Option<string>,
                         dashboardUrl: string, pendingPaymentsUrl: string): (r: Outcome)
    ensures r.fulfilled.Some? ==>
      r.fetched.Some? && reference(r.fetched.value) == Some(NatToString(r.fulfilled.value.id))
    ensures r.fulfilled.Some? ==> r == Handle(sandbox, vars, lookup, fetch, dashboardUrl, pendingPaymentsUrl)
    ensures var o := Handle(sandbox, vars, lookup, fetch, dashboardUrl, pendingPaymentsUrl);
      r.fulfilled.None? ==>
        r.lookedUp == o.lookedUp && r.fetched == o.fetched &&
        (r == o || (o.fulfilled.Some? && reference(o.fetched.value) != Some(NatToString(o.fulfilled.value.id)) &&
                    r.page == ErrorPage))
  {
    var o := Handle(sandbox, vars, lookup, fetch, dashboardUrl, pendingPaymentsUrl);
    if o.fulfilled.Some? && reference(o.fetched.value) != Some(NatToString(o.fulfilled.value.id)) then
      Outcome(ErrorPage, o.lookedUp, o.fetched, None)
    else o
  }

  /** With the check, a paid session fulfils payments of one id only, however often it is replayed. */
  lemma CheckedSessionFulfilsOnePayment(
    vars1: map<string, string>, vars2: map<string, string>,
    lookup: Option<string> -> Option<QueuedPayment>, fetch: string -> FetchResponse,
    reference: string -> Option<string>, dashboardUrl: string, pendingPaymentsUrl: string)
    requires UserVar(vars1, "session_id") == UserVar(vars2, "session_id")
    ensures var r1 := HandleChecked(false, vars1, lookup, fetch, reference, dashboardUrl, pendingPaymentsUrl);
      var r2 := HandleChecked(false, vars2, lookup, fetch, reference, dashboardUrl, pendingPaymentsUrl);
      r1.fulfilled.Some? && r2.fulfilled.Some? ==> r1.fulfilled.value.id == r2.fulfilled.value.id
  {
    var r1 := HandleChecked(false, vars1, lookup, fetch, reference, dashboardUrl, pendingPaymentsUrl);
    var r2 := HandleChecked(false, vars2, lookup, fetch, reference, dashboardUrl, pendingPaymentsUrl);
    if r1.fulfilled.Some? && r2.fulfilled.Some? {
      NatToStringInjective(r1.fulfilled.value.id, r2.fulfilled.value.id);
    }
  }
}
