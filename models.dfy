/**
  * The gateway's persistent records (merchants, orders, payments), the error
  * responses its handlers send, and the constraints the database schema
  * places on each row.
  */
module Models {
  import opened Wrappers
  import Validation

  // ---------------------------------------------------------------------------
  // Errors
  // ---------------------------------------------------------------------------

  /**
    * An error response: HTTP status, `error.code` and `error.description`.
    * `Internal` is the catch-all 500 INTERNAL_ERROR whose description is the
    * message of whatever the store threw.
    */
  datatype ApiError =
    | ApiError(status: nat, code: string, description: string)
    | Internal

  /** The HTTP status an error is sent with. */
  function StatusOf(e: ApiError): nat
  {
    match e
    case ApiError(s, _, _) => s
    case Internal => 500
  }

  /**
    * The statuses the handlers answer an error with: 400 for a rejected
    * field, 401 for bad credentials, 404 for an unknown or foreign record and
    * 500 for a failure of the store.
    */
  predicate IsSentStatus(s: nat)
  {
    s == 400 || s == 401 || s == 404 || s == 500
  }

  const OrderNotFound := ApiError(404, "NOT_FOUND_ERROR", "Order not found")
  const PaymentNotFound := ApiError(404, "NOT_FOUND_ERROR", "Payment not found")
  const InvalidCredentials := ApiError(401, "AUTHENTICATION_ERROR", "Invalid API credentials")
  const AuthenticationFailed := ApiError(500, "INTERNAL_SERVER_ERROR", "Authentication failed")
  const AmountTooSmall := ApiError(400, "BAD_REQUEST_ERROR", "amount must be at least 100")
  const InvalidVpa := ApiError(400, "INVALID_VPA", "Invalid VPA format")
  const CardMissing := ApiError(400, "BAD_REQUEST_ERROR", "Card details missing")
  const CardIncomplete := ApiError(400, "BAD_REQUEST_ERROR", "Incomplete card details")
  const InvalidCard := ApiError(400, "INVALID_CARD", "Invalid card number")
  const ExpiredCard := ApiError(400, "EXPIRED_CARD", "Card has expired")
  const InvalidMethod := ApiError(400, "BAD_REQUEST_ERROR", "Invalid payment method")

  /** What a failed settlement writes into the payment. */
  const DeclinedCode := "PAYMENT_FAILED"
  const DeclinedDescription := "Transaction declined by bank"

  // ---------------------------------------------------------------------------
  // Records
  // ---------------------------------------------------------------------------

  /**
    * JavaScript truthiness of an optional string (a header, a body field):
    * absent and empty are both false.
    */
  predicate Truthy(s: Option<string>)
  {
    s.Some? && s.value != ""
  }

  /** A merchant's UUID. */
  type MerchantId = string

  /** A timestamp column (`created_at`, `updated_at`), abstracted to a number. */
  type Timestamp = nat

  datatype Merchant = Merchant(
    id: MerchantId,
    name: string,
    email: string,
    api_key: string,
    api_secret: string,
    webhook_url: Option<string>,
    is_active: bool)

  /** A JSON value, as stored in the `notes` JSONB column. */
  datatype Json =
    | JNull
    | JBool(b: bool)
    | JNumber(n: real)
    | JString(s: string)
    | JArray(items: seq<Json>)
    | JObject(members: seq<(string, Json)>)

  datatype Order = Order(
    id: string,
    merchant_id: MerchantId,
    amount: int,
    currency: string,
    receipt: Option<string>,
    notes: Option<Json>,
    status: string,
    created_at: Timestamp,
    updated_at: Timestamp)

  /** The two values the `method` column admits. */
  datatype PayMethod = Upi | Card

  /** The values the create path and settlement write into `status`. */
  datatype PaymentStatus = Created | Processing | Success | Failed

  datatype Payment = Payment(
    id: string,
    order_id: string,
    merchant_id: MerchantId,
    amount: int,
    currency: string,
    payment_method: PayMethod,  // the `method` column
    status: PaymentStatus,
    vpa: Option<string>,
    card_network: Option<Validation.CardNetwork>,
    card_last4: Option<string>,
    error_code: Option<string>,
    error_description: Option<string>,
    created_at: Timestamp,
    updated_at: Timestamp)

  // ---------------------------------------------------------------------------
  // Schema constraints
  // ---------------------------------------------------------------------------

  /** The largest value of a PostgreSQL `integer` column. */
  const MaxInteger: int := 0x7FFF_FFFF
  const MinInteger: int := -0x8000_0000

  /** The length of a plain `STRING` column, `varchar(255)`. */
  const DefaultStringLength: nat := 255

  /** Order's default status and currency. */
  const OrderCreatedStatus := "created"
  const DefaultCurrency := "INR"

  predicate FitsInteger(n: int) { MinInteger <= n <= MaxInteger }

  predicate FitsString(s: string, n: nat) { |s| <= n }

  predicate FitsOptString(s: Option<string>, n: nat) { s.None? || |s.value| <= n }

  /**
    * A row the `orders` table accepts: `varchar(64)` id, integer amount of at
    * least 100, `varchar(3)` currency, `varchar(255)` receipt and
    * `varchar(20)` status.
    */
  predicate OrderRowValid(o: Order)
  {
    && FitsString(o.id, 64)
    && 100 <= o.amount && FitsInteger(o.amount)
    && FitsString(o.currency, 3)
    && FitsOptString(o.receipt, DefaultStringLength)
    && FitsString(o.status, 20)
  }

  /**
    * A row the `payments` table accepts: `varchar(64)` id and order_id,
    * integer amount, `varchar(3)` currency, `varchar(255)` vpa, `varchar(4)`
    * card_last4 and `varchar(50)` error_code (`card_network` holds one of
    * five short names and `method` one of the two enum values by typing).
    */
  predicate PaymentRowValid(p: Payment)
  {
    && FitsString(p.id, 64)
    && FitsString(p.order_id, 64)
    && FitsInteger(p.amount)
    && FitsString(p.currency, 3)
    && FitsOptString(p.vpa, DefaultStringLength)
    && FitsOptString(p.card_last4, 4)
    && FitsOptString(p.error_code, 50)
  }

  /** `api_key` is unique and `id` is the primary key. */
  predicate MerchantsValid(ms: seq<Merchant>)
  {
    forall i, j :: 0 <= i < j < |ms| ==> ms[i].api_key != ms[j].api_key && ms[i].id != ms[j].id
  }

  /** Every order row is valid and stored under its own primary key. */
  predicate OrdersValid(orders: map<string, Order>)
  {
    forall id :: id in orders ==> orders[id].id == id && OrderRowValid(orders[id])
  }

  /** The method-specific columns agree with the method: a VPA for UPI, card data for cards. */
  predicate MethodFieldsAgree(p: Payment)
  {
    match p.payment_method
    case Upi => p.vpa.Some? && Validation.ValidateVPA(p.vpa.value) && p.card_network.None? && p.card_last4.None?
    case Card => p.vpa.None? && p.card_network.Some? && p.card_last4.Some? && |p.card_last4.value| == 4
  }

  /**
    * Every payment row is valid, stored under its own primary key, refers to
    * an existing order (the foreign key) and carries that order's merchant,
    * amount and currency.
    */
  predicate PaymentsValid(orders: map<string, Order>, payments: map<string, Payment>)
  {
    forall id :: id in payments ==> PaymentValidIn(orders, payments[id], id)
  }

  predicate PaymentValidIn(orders: map<string, Order>, p: Payment, id: string)
  {
    && p.id == id
    && PaymentRowValid(p)
    && p.order_id in orders
    && p.merchant_id == orders[p.order_id].merchant_id
    && p.amount == orders[p.order_id].amount
    && p.currency == orders[p.order_id].currency
    && MethodFieldsAgree(p)
  }

  /**
    * A payment in a terminal state: `success` without error fields, or
    * `failed` with the decline code and description.
    */
  predicate IsSettled(p: Payment)
  {
    || (p.status == Success && p.error_code.None? && p.error_description.None?)
    || (p.status == Failed && p.error_code == Some(DeclinedCode) && p.error_description == Some(DeclinedDescription))
  }

  predicate AllSettled(payments: map<string, Payment>)
  {
    forall id :: id in payments ==> IsSettled(payments[id])
  }

  /** The whole store: valid orders, valid payments referring to them. */
  predicate StoreValid(orders: map<string, Order>, payments: map<string, Payment>)
  {
    OrdersValid(orders) && PaymentsValid(orders, payments)
  }

  /** Adding an order never invalidates the payments that refer to older orders. */
  lemma AddOrderKeepsPayments(orders: map<string, Order>, payments: map<string, Payment>, o: Order)
    requires StoreValid(orders, payments) && OrderRowValid(o) && o.id !in orders
    ensures StoreValid(orders[o.id := o], payments)
  {
    var orders' := orders[o.id := o];
    forall id | id in payments ensures PaymentValidIn(orders', payments[id], id) {
      assert PaymentValidIn(orders, payments[id], id);
      assert payments[id].order_id != o.id;
    }
  }
}
