/** The platform's queued payment, as the plugin reads it. */
module Billing {

  /**
   * `id`, the amount in minor units (cents), the ISO 4217 currency code, and
   * the item name the payment manager gives the payment (`getPaymentName`).
   */
  datatype QueuedPayment = QueuedPayment(id: nat, amountCents: int, currencyCode: string, itemName: string)
}
