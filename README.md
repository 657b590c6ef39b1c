# Payment gateway core, in Dafny

A model of the backend of a small payment gateway: merchants authenticate
with an API key and secret and create orders; customers (or merchants) pay
an order by UPI or card. Each payment is recorded as `processing`, settled
by a simulated bank (success with a configured probability, after a random
delay), and saved as `success` or `failed`. The model covers:

- `ValidationService` (module `Validation`): the VPA pattern, the Luhn
  check, card-network detection and the expiry check.
- `authenticateMerchant` (module `Auth`): header check and credential lookup.
- The order and payment records and the database constraints on them
  (module `Models`).
- The order routes (module `Orders`) and payment routes (module `Payments`)
  as specification functions over the order and payment tables.
- The 16-character random id generators, one of them with a
  regenerate-until-unused loop (module `Ids`, over module `Random`).
- The store and its handlers (class `Gateway.Gateway`). This is a class
  whose `orders` and `payments` maps are updated in place by the create
  handlers and read by the others. Each handler is proved equal to the
  specification function and keeps the store invariant `Valid()`.

The invariant says:

- merchant keys are unique;
- every row respects its column types and lengths and sits under its own
  primary key;
- every payment refers to an existing order and carries that order's
  merchant, amount and currency;
- the method-specific columns agree with the method;
- every stored payment is in a terminal state.

Randomness, the clock and the environment are parameters. Each
`Math.random()` value is a `Random.Unit`, a real in [0, 1). The current
year and month are a `Validation.YearMonth`. Timestamps are numbers. The
environment variables are a `Payments.Config`. Whether the credential
lookup throws is a boolean `lookupFails`. Errors are `Models.ApiError`
values with status, code and description. `Internal` is the catch-all 500
`INTERNAL_ERROR`.

The create-payment handler waits for the simulated settlement and returns
the final status, `success` or `failed` (`payments.js:199`), not
`processing`. The model follows the code.

## Model

| member | source | states |
|---|---|---|
| Validation.ValidateVPA | backend/src/services/ValidationService.js:2-6 | the VPA test: a non-empty run of letters, digits, `.`, `_`, `-` before the first `@`, and a non-empty run of letters and digits after it |
| Validation.FirstAt | backend/src/services/ValidationService.js:4 | the position found is the first `@`, or the length when there is none |
| Validation.FirstAtIs | backend/src/services/ValidationService.js:4 | any position holding an `@` with none before it is the first `@` |
| Validation.VpaShape | backend/src/services/ValidationService.js:2-6 | a VPA is accepted exactly when it splits into a non-empty run of letters, digits, `.`, `_`, `-`, then one `@`, then a non-empty run of letters and digits; an accepted VPA has exactly one `@` |
| Validation.VpaAcceptsExample | backend/src/services/ValidationService.js:2-6 | `user.name-1@bank` is accepted |
| Validation.VpaRejectsExamples | backend/src/services/ValidationService.js:2-6 | a doubled `@` and a missing `@` are rejected |
| Validation.DigitValue | backend/src/services/ValidationService.js:17 | the value of an ASCII digit is between 0 and 9 |
| Validation.Clean | backend/src/services/ValidationService.js:9 | removing whitespace and hyphens never lengthens the string and leaves no separator |
| Validation.CleanConcat | backend/src/services/ValidationService.js:9 | cleaning distributes over concatenation |
| Validation.CleanKeeps | backend/src/services/ValidationService.js:9 | a string without separators is unchanged by cleaning |
| Validation.DigitsHaveNoSeparator | backend/src/services/ValidationService.js:9-10 | an all-digit string is its own cleaned form |
| Validation.CleanSeparator | backend/src/services/ValidationService.js:9 | each separator cleans to nothing |
| Validation.SeparatorInsertion | backend/src/services/ValidationService.js:9 | inserting a space or hyphen anywhere in a card number does not change its cleaned form |
| Validation.Contribution | backend/src/services/ValidationService.js:19-22 | a digit contributes itself, or when doubled its double less 9 if that exceeds 9; always between 0 and 9 |
| Validation.ContributionInjective | backend/src/services/ValidationService.js:19-22 | two different digits in the same position contribute differently |
| Validation.LuhnSum | backend/src/services/ValidationService.js:16-26 | the Luhn sum of n digits is between 0 and 9n |
| Validation.LuhnSumStep | backend/src/services/ValidationService.js:16-26 | the Luhn sum of a suffix is the contribution of its first digit (doubled exactly when an even count of digits is left from it) plus the sum of the rest |
| Validation.ValidateCardLuhn | backend/src/services/ValidationService.js:8-29 | the right-to-left loop returns exactly the Luhn predicate: the cleaned number is 13 to 19 ASCII digits and its Luhn sum is a multiple of 10; anything else is rejected |
| Validation.LuhnSumUpdate | backend/src/services/ValidationService.js:16-26 | changing one digit changes the Luhn sum by exactly the change of that digit's contribution |
| Validation.SingleDigitErrorDetected | backend/src/services/ValidationService.js:8-29 | changing any single digit of a valid card number makes it invalid |
| Validation.NonZeroShiftBreaksMultiple | backend/src/services/ValidationService.js:28 | a multiple of 10 shifted by a non-zero amount of at most 9 is no longer a multiple of 10 |
| Validation.LuhnValid | backend/src/services/ValidationService.js:8-29 | the Luhn test: the number with whitespace and hyphens removed is 13 to 19 ASCII digits and its Luhn sum is a multiple of 10 |
| Validation.LuhnSumSplit | backend/src/services/ValidationService.js:16-26 | the Luhn sum of a prefix followed by an even-length block is the sum of the two parts |
| Validation.GroupSum | backend/src/services/ValidationService.js:16-26 | in a group of four digits the first and third are doubled |
| Validation.SixteenDigitSum | backend/src/services/ValidationService.js:16-26 | in a sixteen-digit number exactly the digits at even indices are doubled |
| Validation.LuhnValidExample | backend/src/services/ValidationService.js:8-29 | `4532015112830366` is all digits with Luhn sum 50, so it is valid |
| Validation.LuhnExamples | backend/src/services/ValidationService.js:8-29 | `4532015112830366` is valid and `4532015112830367` is not |
| Validation.FirstTwo | backend/src/services/ValidationService.js:37 | the two-character prefix, when it is two digits, is read as a number from 0 to 99 |
| Validation.DetectCardNetwork | backend/src/services/ValidationService.js:31-47 | the network rules: a leading 4 is Visa; otherwise the two-digit prefix 51-55 is Mastercard, 34 or 37 Amex, 60, 65 or 81-89 RuPay; anything else Unknown |
| Validation.NetworkByPrefix | backend/src/services/ValidationService.js:31-47 | the network is Visa exactly for a cleaned number starting with 4, Mastercard exactly for 51-55, Amex for 34 and 37, RuPay for 60, 65 and 81-89, Unknown otherwise |
| Validation.VisaExample | backend/src/services/ValidationService.js:31-47 | `4111111111111111` is Visa |
| Validation.MastercardExample | backend/src/services/ValidationService.js:31-47 | `5500000000000004` is Mastercard |
| Validation.AmexExample | backend/src/services/ValidationService.js:31-47 | `340000000000009` is Amex |
| Validation.RupayExample | backend/src/services/ValidationService.js:31-47 | `6521111111111117` is RuPay |
| Validation.UnknownExample | backend/src/services/ValidationService.js:31-47 | `1234567890123456` is Unknown |
| Validation.NetworkExamples | backend/src/services/ValidationService.js:31-47 | one number of each network and one of none are classified as such |
| Validation.ValidateCardExpiry | backend/src/services/ValidationService.js:49-66 | a card is valid exactly when its month is 1 to 12 and its year (two-digit years taken as 20xx) and month are not before the current year and month |
| Validation.ExpiryMonotone | backend/src/services/ValidationService.js:53-65 | an expiry no earlier than a valid one is valid |
| Validation.ExpiryValidEarlier | backend/src/services/ValidationService.js:58-65 | a card valid today was valid in every earlier month |
| Validation.ExpiryExamples | backend/src/services/ValidationService.js:49-66 | the current month is valid, last month is not, `25` means 2025, month 13 is never valid |
| Random.Scale | backend/src/routes/payments.js:25 | `Math.floor(Math.random() * n)` lies in [0, n) for positive n |
| Random.ScaleBounds | backend/src/routes/payments.js:25 | the scaled draw before flooring lies in [0, n) |
| Ids.Drawn | backend/src/routes/orders.js:25-27 | one character is drawn per random value |
| Ids.DrawnAt | backend/src/routes/orders.js:25-27 | the i-th character is the alphabet character picked by the i-th draw |
| Ids.AlphabetIsAlphanumeric | backend/src/routes/orders.js:23 | the alphabet has 62 distinct characters, exactly the ASCII letters and digits |
| Ids.AlphabetCodes | backend/src/routes/orders.js:23 | the alphabet lists upper-case letters, lower-case letters, then digits, in code order |
| Ids.DrawCharIsAlnum | backend/src/routes/orders.js:26 | every draw picks an ASCII letter or digit |
| Ids.IdFromShape | backend/src/routes/orders.js:22-29 | a generated id is the prefix followed by 16 ASCII letters or digits |
| Ids.EveryShapedIdIsReachable | backend/src/routes/payments.js:113-120 | every prefix-plus-16-alphanumerics string is produced by some sequence of draws |
| Ids.DrawsFor | backend/src/routes/payments.js:117 | for any alphanumeric string there are draws that spell it |
| Ids.AlphabetIndex | backend/src/routes/orders.js:23 | each ASCII letter or digit sits at some position of the alphabet |
| Ids.DrawFor | backend/src/routes/orders.js:26 | each ASCII letter or digit is picked by some random value |
| Ids.GenerateId | backend/src/routes/payments.js:113-122 | the loop appends one drawn character 16 times to the prefix and yields a well-shaped id |
| Ids.FirstUnused | backend/src/routes/orders.js:31-37 | the index of the first attempt whose id is not taken |
| Ids.GenerateUnusedId | backend/src/routes/orders.js:31-37 | the regenerate loop returns the first attempted id not already taken, and it is well shaped |
| Ids.FirstUnusedIs | backend/src/routes/orders.js:31-37 | an attempt that is unused, with every earlier one used, is the first unused one |
| Models.AddOrderKeepsPayments | backend/src/models/Payment.js:11-18 | adding an order under a new key leaves every payment's foreign key and copied order fields intact |
| Models.OrderRowValid | backend/src/models/Order.js:5-40 | the order row constraints: an id of at most 64 characters, an `integer` amount of at least 100, a currency of at most 3 characters, a receipt of at most 255 and a status of at most 20 |
| Models.OrdersValid | backend/src/models/Order.js:5-40 | every stored order is a valid row under its own id |
| Models.PaymentRowValid | backend/src/models/Payment.js:6-65 | the payment row constraints: id and order id of at most 64 characters, an `integer` amount, a currency of at most 3 characters, a VPA of at most 255, a last-four of at most 4 and an error code of at most 50 |
| Models.PaymentsValid | backend/src/models/Payment.js:6-65 | every stored payment is a valid row under its own id, refers to an existing order, carries its merchant, amount and currency, and has method columns that agree with its method |
| Auth.FindByCredentials | backend/src/middlewares/auth.js:17-22 | the lookup returns a merchant matching both key and secret, and none exactly when no merchant matches |
| Auth.Authenticate | backend/src/middlewares/auth.js:3-44 | a bound merchant is a stored merchant; every refusal is the 401 credentials error or the 500 lookup failure |
| Auth.AuthenticateSound | backend/src/middlewares/auth.js:7-33 | a merchant is bound only when both headers are non-empty and equal its key and secret and the lookup did not fail |
| Auth.AuthenticateComplete | backend/src/middlewares/auth.js:16-34 | with unique API keys, a merchant's own non-empty credentials bind that merchant |
| Auth.FindUnique | backend/src/middlewares/auth.js:17-22 | with unique API keys, the lookup by a merchant's credentials returns that merchant |
| Auth.MissingAndWrongIndistinguishable | backend/src/middlewares/auth.js:7-31 | a missing header and wrong credentials get the same 401; a missing header is answered without the store |
| Auth.LookupFailureIsServerError | backend/src/middlewares/auth.js:35-43 | a lookup that throws gives the 500 `Authentication failed` |
| Auth.AuthErrorStatus | backend/src/middlewares/auth.js:7-43 | the middleware answers only 401 or 500, and 500 exactly when both headers are present and the lookup fails |
| Orders.NewOrder | backend/src/routes/orders.js:39-47 | the inserted row: the new id, the caller's merchant, the amount, the currency or INR, receipt, notes and status `created` |
| Orders.OrderCreation | backend/src/routes/orders.js:9-58 | create-order: a rejected amount is the 400 and an insert the store refuses is a 500, both leaving the orders unchanged; otherwise the new row is added under its id and echoed |
| Orders.AmountAccepted | backend/src/routes/orders.js:12 | the amount test accepts exactly the integers from 100 up |
| Orders.RejectedAmountCreatesNothing | backend/src/routes/orders.js:12-19 | a rejected amount is a 400 and leaves the orders unchanged |
| Orders.AmountBoundary | backend/src/routes/orders.js:12 | 99, 0, a missing and a non-integer amount are rejected; 100 is accepted |
| Orders.CreatedOrderFields | backend/src/routes/orders.js:39-58 | a created order is added under its new id with the caller's merchant, the amount, the currency or INR, receipt, notes and status `created`; other orders are unchanged; the response echoes the row |
| Orders.CreationKeepsStoreValid | backend/src/models/Order.js:5-40 | order creation keeps the store's rows valid |
| Orders.ScopedOrder | backend/src/routes/orders.js:77-91 | the authenticated read: the order with this id and the caller's merchant, else the 404 |
| Orders.ScopedOrderIsWhereFilter | backend/src/routes/orders.js:77-82 | the scoped read finds an order exactly when a row has that id and the caller's merchant, and returns that row |
| Orders.ForeignOrderLooksAbsent | backend/src/routes/orders.js:84-91 | another merchant's order gets the same 404 as a missing one |
| Orders.PublicView | backend/src/routes/orders_public.js:20-25 | the public order response: id, amount, currency and status |
| Orders.PublicOrder | backend/src/routes/orders_public.js:8-25 | the public read: the public view of the order with this id, whoever owns it, else the 404 |
| Orders.PublicViewIsRestriction | backend/src/routes/orders_public.js:20-25 | the public view shows exactly id, amount, currency and status |
| Orders.PublicReadIgnoresOwner | backend/src/routes/orders_public.js:8-17 | the public read finds any stored order whoever owns it, agrees with the owner's read, and gives the 404 for a missing order |
| Orders.OrderErrorStatuses | backend/src/routes/orders.js:12-91 | order creation answers 400 exactly for a rejected amount and otherwise 500; both reads answer only 404 |
| Payments.Last4 | backend/src/routes/payments.js:107 | the last four characters (all of a shorter string), a suffix of the input |
| Payments.Admit | backend/src/routes/payments.js:64-110 | the checks before the insert: order exists and, when a merchant is bound, is its own (else 404); then UPI needs a valid VPA, card needs a card, holder and CVV, a Luhn-valid number and an unexpired date, and any other method is refused; an admitted draft copies the order's merchant, amount and currency |
| Payments.Simulate | backend/src/routes/payments.js:13-35 | the bank simulation: in test mode the configured delay and outcome; otherwise a delay drawn between the bounds and success when the draw is below the method's rate |
| Payments.TestModeIsDeterministic | backend/src/routes/payments.js:20-21 | in test mode the delay and the outcome come from the configuration, not from the draws |
| Payments.DelayWithinBounds | backend/src/routes/payments.js:22-26 | outside test mode the delay lies between the configured minimum and maximum |
| Payments.OutcomeIsThreshold | backend/src/routes/payments.js:30-35 | outside test mode success is a threshold on the draw: a smaller draw also succeeds, rate 1 always succeeds, rate 0 never does |
| Payments.DefaultSettlement | backend/src/routes/payments.js:13-26 | with no environment set: a delay of 5000-10000 ms, success below 0.9 for UPI and 0.95 for cards |
| Payments.Settle | backend/src/routes/payments.js:37-45 | the settlement save: status `success`, or `failed` with the decline code and description, and a new `updated_at` |
| Payments.SettleIsTerminal | backend/src/routes/payments.js:37-45 | settling a processing payment gives success or failed with the decline code and description, as the outcome says, changing only status, error fields and `updated_at` |
| Payments.PaymentCreation | backend/src/routes/payments.js:60-207 | create-payment: a refused check is its error with the store unchanged; a key collision or out-of-schema row is a 500; otherwise the payment is inserted, settled, and shown |
| Payments.RejectionLeavesStore | backend/src/routes/payments.js:64-110 | every validation refusal happens before the insert and leaves the payments unchanged |
| Payments.ForeignOrderLooksAbsent | backend/src/routes/payments.js:65-74 | paying another merchant's order gets the same 404 as a missing order |
| Payments.PublicCreateSkipsOwnership | backend/src/routes/payments_public.js:6-8 | for the owner's own order the public and merchant routes give the same response and store; the public route never answers 404 for a stored order |
| Payments.CardChecksInOrder | backend/src/routes/payments.js:91-107 | card checks run in order: card missing, holder or CVV missing, Luhn, expiry |
| Payments.CardDataMinimized | backend/src/routes/payments.js:106-107 | a card payment stores no VPA, the number's network, and the last four characters of the cleaned number, which are four ASCII digits; two accepted requests differing only in CVV, holder or expiry admit the same payment |
| Payments.AcceptedCreatesSettledRecord | backend/src/routes/payments.js:77-201 | an admitted payment is added under its id with the order's merchant, amount and currency, settled as the simulation says, other payments unchanged, and the response shows the saved record |
| Payments.RefusedInsertIsInternalError | backend/src/routes/payments.js:122-206 | a key collision or an out-of-schema row is a 500 and leaves the store unchanged |
| Payments.CreationKeepsStoreValid | backend/src/models/Payment.js:6-65 | payment creation keeps the store valid and every stored payment settled |
| Payments.DetailView | backend/src/routes/payments.js:215-231 | the authenticated GET response: the payment's fields with `updated_at` and its method's details |
| Payments.ScopedPayment | backend/src/routes/payments.js:210-235 | the authenticated read: the detail view of the payment with this id and the caller's merchant, else the 404 |
| Payments.ScopedPaymentIsOwnersOnly | backend/src/routes/payments.js:210-235 | another merchant's payment gets the same 404 as a missing one; a found payment is the caller's, shown with its id, status, amount and `updated_at` |
| Payments.PublicView | backend/src/routes/payments_public.js:18-28 | the public payment response: id, status, method, amount, currency, and the error description only when failed |
| Payments.PublicPayment | backend/src/routes/payments_public.js:11-30 | the public read: the public view of the payment with this id, whoever owns it, else the 404 |
| Payments.PublicViewIsRestriction | backend/src/routes/payments_public.js:18-28 | the public view shows exactly id, status, method, amount, currency, and the error description only when failed; a settled failed payment shows the decline description |
| Payments.PublicReadIgnoresOwner | backend/src/routes/payments_public.js:11-16 | the public read finds every stored payment, whoever owns it, and otherwise gives the 404 |
| Payments.ListItem | backend/src/routes/payments.js:246-257 | a list entry: every response field of the payment, both methods' columns included |
| Payments.IsListing | backend/src/routes/payments.js:240-243 | the rows `findAll` returns: exactly the caller's stored payments, without repeats, newest first |
| Payments.ListResponse | backend/src/routes/payments.js:246-257 | the listing maps each row, in order, to its list entry |
| Payments.ListingExists | backend/src/routes/payments.js:240-243 | every merchant's payments have a newest-first listing |
| Payments.NewestFirst | backend/src/routes/payments.js:242 | a duplicate-free sequence of exactly the set's payments, created_at descending |
| Payments.LatestExists | backend/src/routes/payments.js:242 | a non-empty set of payments has a latest one |
| Payments.ListIsScopedAndOrdered | backend/src/routes/payments.js:238-263 | each listed entry is one of the caller's stored payments, every one of them is listed, newest first |
| Payments.PaymentErrorStatuses | backend/src/routes/payments.js:64-235 | payment creation answers 400, 404 or 500: 404 exactly for a missing or foreign order, 500 exactly when the checks passed; the two reads answer only 404 |
| Gateway.Gateway.constructor | backend/src/models/Merchant.js:19-23 | an empty store over merchants with unique keys is valid |
| Gateway.Gateway.CreateOrder | backend/src/routes/orders.js:7-64 | authenticate, check the amount, draw ids until one is unused, insert; the result and new orders are the creation function's, payments unchanged, store valid |
| Gateway.Gateway.GetOrder | backend/src/routes/orders.js:67-97 | authentication then the scoped read; a returned order is stored and owned by the merchant whose credentials were sent |
| Gateway.Gateway.ProcessPayment | backend/src/routes/payments.js:11-47 | the delay and outcome are the simulation's and the payment is saved settled; nothing else changes |
| Gateway.Gateway.AdmitPayment | backend/src/routes/payments.js:64-110 | the handler's checks give exactly the admission function's result |
| Gateway.Gateway.InsertAndSettle | backend/src/routes/payments.js:127-201 | insert, settle and respond as the creation function says, keeping the store valid |
| Gateway.Gateway.HandleCreatePayment | backend/src/routes/payments.js:60-207 | the whole handler equals the creation function with the generated id, keeps the store valid and the orders unchanged |
| Gateway.Gateway.CreatePayment | backend/src/routes/payments.js:54-56 | authentication failures change nothing; otherwise the handler with the merchant bound |
| Gateway.Gateway.CreatePublicPayment | backend/src/routes/payments_public.js:6-8 | the handler with no merchant bound |
| Gateway.Gateway.GetPayment | backend/src/routes/payments.js:210-235 | authentication then the scoped read; a returned payment is owned by the merchant whose credentials were sent |
| Gateway.Gateway.ListPayments | backend/src/routes/payments.js:238-263 | authentication then the list mapping; every entry is a stored payment, newest first |

## Left out

- HTTP and Express plumbing (routing, JSON bodies, status-code sending). Each
  handler returns a `Result` whose error carries the status and body.
- Sequelize and PostgreSQL are replaced by two maps. The store's refusals
  are kept as an `Internal` error: a duplicate key, a string over its column
  length, an amount outside `integer`. The text of the thrown message (the
  500's description) is not modelled.
- `sleep(delay)`: the delay is computed and returned, not waited.
- Success rates are exact reals, not IEEE doubles. `parseFloat`/`parseInt`
  of environment strings are not modelled: `Payments.Config` holds the
  parsed values.
- `Payments.PaymentRequest`: `order_id` and the card `number` are always
  strings. A missing number (a 500 from `number.replace`) and a missing or
  non-string `order_id` are not modelled. Expiry month and year are
  integers, so the `parseInt` NaN cases (which always pass the month and year
  checks in the source) are not represented.
- The VPA regular expression is written out as a predicate. There is no
  regex engine.
- Concurrency: two requests racing on the same id or order are not modelled.
  Each handler runs atomically.
- Gateway.Gateway.CreateOrder: its `attempts` must contain an unused id.
  That is the condition under which the source's regenerate loop ends; an
  endless run of collisions is not modelled.
- Gateway.Gateway.ProcessPayment: a `save()` that throws after the insert
  would leave the payment `processing` with a 500 response. The model
  assumes the save succeeds, which is what keeps `AllSettled` invariant.
- Gateway.Gateway.ListPayments: the rows of `findAll` are a parameter
  required to be a newest-first listing of the caller's payments. The
  database's tie order among equal `created_at` values is not modelled.
- `notes` is carried as a JSON value but never inspected.
- The merchant model is only what authentication and ownership use. Merchant
  creation and seeding, the health and test routes, and the frontend and
  checkout pages are not part of this model.
- Timestamps are abstract numbers supplied by the caller, not clock
  readings. `created_at` and `updated_at` are set as Sequelize sets them on
  insert and on save.
