# EMS.pub Stripe payment plugin — a Dafny model of its decision core

The plugin lets an Open Journal Systems / PKP journal collect a one-time
payment for a queued payment (an article-processing charge, say) through
Stripe. On the way back it fulfils the queued payment named in the return
URL once Stripe reports the Checkout session named in that URL paid (nothing
checks that the session was created for that payment; see "## Findings"). This
project models the three parts of the plugin that decide something:

- **Settings** (`settings.dfy`): `saveSettings` keeps only the four Stripe
  settings from the submitted payment-settings form, coerces them, and writes
  each to the plugin's settings store and to the form's collection of updated
  settings; `isConfigured` says whether a journal has an account name. The
  plugin is a class whose `settings` field is the store `getSetting` and
  `updateSetting` read and write.
- **Payment form** (`payment_form.dfy`): `display` guards against sandbox
  mode, tries a PaymentIntents purchase, falls back to a hosted Checkout
  session, and otherwise shows the generic error. Each strategy's response is
  reduced to a tagged result (`Redirect(url)`, `NoAction`, `Failed`); the
  request records are built from the queued payment.
- **Return handler** (`return_handler.dfy`): `handle` classifies the browser's
  return from Stripe into exactly one page (nothing in sandbox mode, the
  cancel page, the success page after fulfilment, or the generic error page)
  and records which collaborators it called.

Supporting modules: `Optional` (null or a value), `Decimal` (decimal text of
integers; `number_format` with two decimals and its inverse), `Php` (scalar
PHP values and the `(string)` cast), `Urls` (a route with a query string),
`Billing` (the queued payment), `Callback` (the round trip: the URLs the
form gives Stripe are the ones the handler reads), `Binary64` (rounding a
positive rational to the nearest IEEE 754 double, in integers) and
`UnitAmount` (the Checkout line item's price in cents, computed from the
amount as a double).

Collaborators are passed in as values: the sandbox flag
(`Config::getVar('general', 'sandbox')`), the request variables, the
queued-payment DAO's `getById`, the Stripe gateways' responses (as functions
from the request sent or the session id fetched to the response), and the
platform URLs (dashboard, pending payments, index, the plugin's return
route). Amounts are integer minor units (cents); only the Checkout line
item's price goes through the amount as a double (`UnitAmount`).

Notes on what the code does, which the model follows:

- `display` performs no "configured" check of its own; the platform is
  expected to offer only configured payment methods.
- The Checkout line item's `unit_amount` is `(int)($amount * 100)`, a
  truncation of the double product, not a rounding, so some prices lose a
  cent (see "## Findings").
- In sandbox mode `handle` returns before anything else, so even the cancel
  page is not shown then.
- There is no typed error taxonomy: the unknown payment, the missing
  `session_id`, a failed fetch, an unpaid session and a failed Checkout
  session all end in the one generic error page.
- The fallback Checkout session is also tried when the PaymentIntents
  response neither redirects nor fails (`NoAction`).

## Model

| member | source | states |
|---|---|---|
| `Settings.IsConfigured` | EmsPubStripePlugin.php:164-173 | false without a journal; otherwise true exactly when the stored `accountName` is not loosely equal (`==`) to '' (null, '' and false are empty) |
| `Settings.FilterParamsKeys` | EmsPubStripePlugin.php:134-145 | a name is kept exactly when it is one of `accountName`, `clientId`, `secret`, `testMode` and was submitted; every other parameter is ignored |
| `Settings.FilterParamsValue` | EmsPubStripePlugin.php:136-143 | the kept value of a name is its last submitted value coerced: the three credentials as PHP strings, `testMode` true exactly when the value is the string 'true' |
| `Settings.FilterSubmitted` | EmsPubStripePlugin.php:132-145 | the first loop builds exactly the whitelisted, coerced map `FilterParams` |
| `Settings.StripePlugin.SaveSettings` | EmsPubStripePlugin.php:126-151 | every filtered setting is written with the same value to the journal's stored settings and to `updatedSettings`; nothing else in either changes |
| `Settings.StripePlugin.UpdateSetting` | EmsPubStripePlugin.php:148 | `updateSetting` changes the one journal's one setting and nothing else |
| `Settings.UpdatedSettings.Put` | EmsPubStripePlugin.php:149 | `put` sets one entry of the collection and keeps the others |
| `Settings.SavedAccountNameDecidesConfigured` | EmsPubStripePlugin.php:139 | after saving, the journal is configured exactly when the account name it last submitted casts to a non-empty string |
| `Settings.UnsubmittedAccountNameKeepsConfigured` | EmsPubStripePlugin.php:134-150 | a save without an account name leaves the journal's configured state as it was |
| `Php.ToPhpString` | EmsPubStripePlugin.php:139 | the `(string)` cast keeps strings and turns null and false into ''; the result is empty exactly for null, false and '' |
| `ReturnHandler.Settle` | EmsPubStripePlugin.php:237-262 | fulfilment of this very payment happens exactly when the fetch succeeded and `payment_status` is the string 'paid', and then the success page shows the payment's own amount and currency with the pending-payments link; otherwise the error page |
| `ReturnHandler.Classify` | EmsPubStripePlugin.php:201-223 | `status=cancel` gives the cancel page with the dashboard link and no fetch or fulfilment, whatever `session_id` is; a missing or falsy `session_id` gives the error page with no fetch; a fetch uses exactly the request's `session_id`; fulfilment only after a fetch reporting paid, and a fetch not reporting paid gives the error page; without the cancel marker, a usable `session_id` is always fetched |
| `ReturnHandler.Handle` | EmsPubStripePlugin.php:178-270 | sandbox mode renders nothing and looks up, fetches and fulfils nothing; an unknown queued payment gives the error page with no fetch; for a known payment, `status=cancel` gives its cancel page with no fetch or fulfilment, and a missing or falsy `session_id` the error page with no fetch; a fetch uses the request's `session_id`, and one not reporting paid gives the error page; fulfilment (at most one, of the looked-up payment) happens exactly when a fetch reported paid, and exactly then the success page is shown; a known payment without the cancel marker and with a usable `session_id` always has that session fetched; the success page shows the pending-payments link and the looked-up payment's name, amount and currency |
| `ReturnHandler.OnlyCorrelationVarsMatter` | EmsPubStripePlugin.php:189-216 | request variables other than `queuedPaymentId`, `status` and `session_id` cannot change the outcome: a client-supplied payment status is never trusted |
| `ReturnHandler.OnePaidSessionFulfilsTwoPayments` | EmsPubStripePlugin.php:189-243 | one paid Checkout session, returned with the ids of two different payments, fulfils each of them |
| `ReturnHandler.HandleChecked` | EmsPubStripePlugin.php:233-243 | with the client-reference check, a payment is fulfilled only when the fetched session carries its id, and then exactly as `handle` would; otherwise the outcome is `handle`'s, or the error page with the same lookup and fetch |
| `ReturnHandler.CheckedSessionFulfilsOnePayment` | EmsPubStripePlugin.php:233-243 | with the check, replaying one session id fulfils payments of a single id only |
| `Decimal.FormatCents` | EmsPubStripePaymentForm.php:73 | the amount text has exactly two fractional digits after a '.', digits everywhere else except a leading '-' for negative amounts, so no thousands separator, and no zero padding of the whole part |
| `Decimal.FormatCentsRoundTrip` | EmsPubStripePaymentForm.php:73 | the formatted amount parses back to the same number of cents |
| `PaymentForm.BuildPurchase` | EmsPubStripePaymentForm.php:72-81 | the PaymentIntents request carries the amount as text that reads back as the payment's cents, its currency and name, the return URL with `queuedPaymentId`, the index page as cancel URL, `confirm` and card payments |
| `PaymentForm.BuildCheckout` | EmsPubStripePaymentForm.php:114-129 | exactly one line item, quantity 1, priced at `(int)($amount * 100)` of the amount held as a double (the cents or one cent less, for 1 cent to 2^44 cents), mode 'payment'; the success URL is the return URL plus `session_id={CHECKOUT_SESSION_ID}`, the cancel URL the same return URL plus `status=cancel` |
| `UnitAmount.LineItemCents` | EmsPubStripePaymentForm.php:121 | the line item's `unit_amount` is the truncated double product, which is the amount's cents or one cent less, for 1 cent to 2^44 cents |
| `PaymentForm.CheckoutLosesACent` | EmsPubStripePaymentForm.php:114-124 | a queued payment of 19.99 is sent to Checkout with a line item of 1998 cents |
| `Binary64.Nearest` | EmsPubStripePaymentForm.php:121 | the double standing for a positive rational below 2^52 has a 53-bit mantissa and lies within half a unit in its last place of the rational |
| `UnitAmount.AsWrittenWithinACent` | EmsPubStripePaymentForm.php:121 | `(int)($amount * 100)` gives the amount's cents or one cent less, for amounts up to 2^44 cents |
| `UnitAmount.UnitAmountLosesACent` | EmsPubStripePaymentForm.php:121 | for an amount of 19.99, `(int)($amount * 100)` is 1998 |
| `UnitAmount.UnitAmountRounded` | EmsPubStripePaymentForm.php:121 | `(int)round($amount * 100)` gives exactly the amount's cents, for amounts up to 2^44 cents |
| `Urls.AppendParam` | EmsPubStripePaymentForm.php:126 | appending `&session_id=…` to the return URL's text is the return URL with one more query parameter |
| `PaymentForm.PurchaseResult` | EmsPubStripePaymentForm.php:89-103 | the primary strategy redirects exactly when the response is a redirect, to its redirect URL; an exception is a failure |
| `PaymentForm.CheckoutResult` | EmsPubStripePaymentForm.php:133-143 | the fallback redirects to `getRedirectUrl()` when the response redirects, else to `data['url']` when it succeeded with one; every other case, and an exception, is a failure |
| `PaymentForm.Display` | EmsPubStripePaymentForm.php:51-152 | sandbox mode shows the sandbox message and sends nothing; otherwise the primary request is sent first, its redirect is followed without trying the fallback, and without one the fallback's result decides between one redirect and the error message |
| `Callback.CancelUrlShowsCancelPage` | EmsPubStripePaymentForm.php:127 | following the fallback's cancel URL makes `handle` show the cancel page for the same payment, with no fetch and no fulfilment |
| `Callback.SuccessUrlFetchesItsSession` | EmsPubStripePaymentForm.php:126 | following the success URL with Stripe's session id in place makes `handle` fetch exactly that session and fulfil the same payment exactly when the fetch reports it paid |

## Left out

- Omnipay and Stripe internals and the HTTPS calls: gateway creation, `initialize` with the journal's `secret`, and `send()` are the response values passed in; the API key handed to the gateways is not modelled.
- Template rendering and locale strings: the chosen page is a datatype carrying the data assigned to the template.
- `register`, `addSettings`, `getName`, `getDisplayName`, `getDescription`, `getPaymentForm` and the form constructor: plugin registration and form-field plumbing.
- The `error_log` and `file_put_contents` debug output: I/O only.
- Floating point: outside `UnitAmount`, amounts are whole cents, so `number_format` is an exact integer operation; `number_format`'s own rounding of the double to two decimals is not modelled.
- UnitAmount.LineItemCents: amounts of zero or less, or above 2^44 cents, are taken at their whole cents; the double conversion is modelled only from 1 cent to 2^44 cents.
- Binary64.Nearest: only positive values below 2^52 are modelled (zero, negative amounts, subnormals, infinities and NaN are not); `UnitAmount` therefore covers amounts from one cent to 2^44 cents.
- `Request::url` construction and percent-encoding: the plugin's return route is an opaque string and only the query parameters the plugin adds are modelled.
- `Config::getVar` is read as a boolean parameter.
- ReturnHandler.HandleChecked: only the handler's half of the client-reference check is modelled; the session's reported reference is a parameter, and setting it on the Checkout request is not modelled. `Handle`, as written, is what the rest of the model uses.
- Idempotence of `fulfillQueuedPayment` under repeated or concurrent callbacks: that belongs to the platform's payment manager and spans several requests.
- Exceptions raised by `getById`, `getPaymentManager`, `getPaymentName`, `fulfillQueuedPayment` or the template manager, and PHP `Error`s (which the `catch (\Exception $e)` blocks do not catch), are not modelled.
- `saveSettings` with a request that has no journal (a null `getContext()` is a fatal error in PHP): the journal id is a parameter.
- Settings.Coerce: PHP floats and arrays among submitted values are not modelled; submitted values are null, booleans, integers or strings.
- Settings.StripePlugin.SaveSettings: the order in which the settings are written (the PHP array's insertion order) is not modelled; the final state does not depend on it because the names are distinct.

## Findings

| source | as written | input that shows it | evidently intended | confidence | as-written member | corrected member |
|---|---|---|---|---|---|---|
| EmsPubStripePaymentForm.php:121 | `'unit_amount' => (int)($amount * 100)` truncates the double product | an amount of 19.99: the nearest double is 5626684784446013 / 2^48, just below 19.99; the product with 100 rounds to 8791694975696895 / 2^42, just below 1999; the cast gives 1998 | the line item costs the amount in cents, e.g. `(int)round($amount * 100)` | not executed | `UnitAmount.UnitAmountLosesACent` | `UnitAmount.UnitAmountRounded` |
| EmsPubStripePlugin.php:233-243 | `handle` fulfils the payment named by `queuedPaymentId` once the session named by `session_id` is paid, without relating the two (the Checkout request built in EmsPubStripePaymentForm.php:114-129 sets no `client_reference_id` or metadata) | pay a Checkout session for a cheap payment, then open the return URL with another payment's `queuedPaymentId` and the same `session_id`: both payments are fulfilled | fulfil only a payment whose id the paid session carries (e.g. as `client_reference_id`) | not executed | `ReturnHandler.OnePaidSessionFulfilsTwoPayments` | `ReturnHandler.HandleChecked` |

`PaymentForm.BuildCheckout` prices its line item as the code does, through
`UnitAmount.LineItemCents`, so `PaymentForm.CheckoutLosesACent` shows the
short request itself; `UnitAmount.UnitAmountRounded` is the conversion the
"Stripe expects cents" comment intends, proved to return exactly the cents.
`ReturnHandler.CheckedSessionFulfilsOnePayment` proves the corrected handler's
promise: replaying one paid session fulfils payments of a single id only.
