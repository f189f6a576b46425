/**
 * The round trip through Stripe: the URLs the payment form hands to the
 * Checkout session are the ones the return handler reads.
 */
module Callback {
  import opened Optional
  import opened Php
  import opened Decimal
  import opened Urls
  import opened Billing
  import opened PaymentForm
  import opened ReturnHandler

  /**
   * Following the cancel URL of the fallback request shows the cancel page
   * for the same payment, with no gateway call and no fulfilment.
   */
  lemma CancelUrlShowsCancelPage(
    payment: QueuedPayment, returnRoute: string, lookup: Option<string> -> Option<QueuedPayment>,
    fetch: string -> FetchResponse, dashboardUrl: string, pendingPaymentsUrl: string)
    requires lookup(Some(NatToString(payment.id))) == Some(payment)
    ensures var u := WithParam(ReturnUrl(returnRoute, payment), "status", "cancel");
      BuildCheckout(payment, returnRoute).cancelUrl == Render(u) &&
      Handle(false, QueryVars(u.query), lookup, fetch, dashboardUrl, pendingPaymentsUrl) ==
        Outcome(CancelPage(dashboardUrl, payment.itemName, payment.amountCents, payment.currencyCode), true, None, None)
  {
    var u := WithParam(ReturnUrl(returnRoute, payment), "status", "cancel");
    var vars := QueryVars(u.query);
    assert u.query[..1] == [("queuedPaymentId", NatToString(payment.id))];
    assert u.query[..1][..0] == [];
    assert QueryVars(u.query[..1]) == map["queuedPaymentId" := NatToString(payment.id)];
    assert "queuedPaymentId" != u.query[1].0 by { assert |"queuedPaymentId"| != |u.query[1].0|; }
    assert UserVar(vars, "queuedPaymentId") == Some(NatToString(payment.id));
    assert UserVar(vars, "status") == Some("cancel");
  }

  /**
   * Following the success URL, once Stripe has put the session id in place
   * of the placeholder, makes the handler fetch exactly that session and
   * fulfil the payment exactly when the fetch reports it paid.
   */
  lemma SuccessUrlFetchesItsSession(
    payment: QueuedPayment, returnRoute: string, sessionId: string,
    lookup: Option<string> -> Option<QueuedPayment>, fetch: string -> FetchResponse,
    dashboardUrl: string, pendingPaymentsUrl: string)
    requires lookup(Some(NatToString(payment.id))) == Some(payment)
    requires !FalsyString(sessionId)
    ensures var r := Handle(false, QueryVars(WithParam(ReturnUrl(returnRoute, payment), "session_id", sessionId).query),
                            lookup, fetch, dashboardUrl, pendingPaymentsUrl);
      r.fetched == Some(sessionId) &&
      (r.fulfilled.Some? <==> ReportsPaid(fetch(sessionId))) &&
      (ReportsPaid(fetch(sessionId)) ==>
        r.fulfilled == Some(payment) &&
        r.page == SuccessPage(pendingPaymentsUrl, payment.itemName, payment.amountCents, payment.currencyCode)) &&
      (!ReportsPaid(fetch(sessionId)) ==> r.page == ErrorPage)
  {
    var u := WithParam(ReturnUrl(returnRoute, payment), "session_id", sessionId);
    var vars := QueryVars(u.query);
    assert u.query[..1] == [("queuedPaymentId", NatToString(payment.id))];
    assert u.query[..1][..0] == [];
    assert QueryVars(u.query[..1]) == map["queuedPaymentId" := NatToString(payment.id)];
    assert "queuedPaymentId" != u.query[1].0 by { assert |"queuedPaymentId"| != |u.query[1].0|; }
    assert UserVar(vars, "queuedPaymentId") == Some(NatToString(payment.id));
    assert "status" != "session_id" by { assert |"status"| != |"session_id"|; }
    assert UserVar(vars, "status") == None;
    assert UserVar(vars, "session_id") == Some(sessionId);
  }
}
