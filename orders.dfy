/**
  * Orders: the create-order request checks and defaults, and the two ways of
  * reading an order back — scoped to the authenticated merchant, or public
  * with four fields only.
  */
module Orders {
  import opened Wrappers
  import opened Models

  // ---------------------------------------------------------------------------
  // Creation
  // ---------------------------------------------------------------------------

  /** The `amount` of a create-order body, as far as the handler's test can tell values apart. */
  datatype AmountInput =
    | Missing          // undefined or null
    | Integer(n: int)  // a number without a fractional part
    | NonInteger       // a fractional number, a string, a boolean, an object

  datatype OrderRequest = OrderRequest(
    amount: AmountInput,
    currency: Option<string>,
    receipt: Option<string>,
    notes: Option<Json>)

  /**
    * The amount test: rejected when falsy (missing or zero), not an integer,
    * or below 100. What it accepts is exactly the integers from 100 up.
    */
  function AmountAccepted(a: AmountInput): (ok: bool)
    ensures ok <==> a.Integer? && a.n >= 100
  {
    !(a.Missing? || a == Integer(0) || !a.Integer? || a.n < 100)
  }

  /** `currency || 'INR'`: an absent or empty currency becomes INR. */
  function OrderCurrency(c: Option<string>): string
  {
    if Truthy(c) then c.value else DefaultCurrency
  }

  /** The row `Order.create` is given for an accepted request. */
  function NewOrder(id: string, merchantId: MerchantId, req: OrderRequest, now: Timestamp): Order
    requires req.amount.Integer?
  {
    Order(id, merchantId, req.amount.n, OrderCurrency(req.currency), req.receipt, req.notes,
          OrderCreatedStatus, now, now)
  }

  /** The create response: every stored field except `updated_at`. */
  datatype OrderCreatedView = OrderCreatedView(
    id: string,
    merchant_id: MerchantId,
    amount: int,
    currency: string,
    receipt: Option<string>,
    notes: Option<Json>,
    status: string,
    created_at: Timestamp)

  function CreatedView(o: Order): OrderCreatedView
  {
    OrderCreatedView(o.id, o.merchant_id, o.amount, o.currency, o.receipt, o.notes, o.status, o.created_at)
  }

  /**
    * The create-order handler once the id is chosen: the response and the
    * order store afterwards. The store refuses a row that breaks the schema
    * (an amount beyond `integer`, a currency longer than 3, a receipt longer
    * than 255) or reuses a key, which the handler reports as a 500.
    */
  function OrderCreation(orders: map<string, Order>, merchantId: MerchantId, req: OrderRequest,
                         id: string, now: Timestamp): (Result<OrderCreatedView, ApiError>, map<string, Order>)
  {
    if !AmountAccepted(req.amount) then (Err(AmountTooSmall), orders)
    else
      var o := NewOrder(id, merchantId, req, now);
      if id in orders || !OrderRowValid(o) then (Err(Internal), orders)
      else (Ok(CreatedView(o)), orders[id := o])
  }

  /** A rejected amount is a 400 and creates no order. */
  lemma RejectedAmountCreatesNothing(orders: map<string, Order>, merchantId: MerchantId, req: OrderRequest,
                                     id: string, now: Timestamp)
    requires !AmountAccepted(req.amount)
    ensures OrderCreation(orders, merchantId, req, id, now) == (Err(AmountTooSmall), orders)
    ensures StatusOf(AmountTooSmall) == 400
  {
  }

  /** The smallest accepted amount is 100. */
  lemma AmountBoundary()
    ensures !AmountAccepted(Integer(99)) && AmountAccepted(Integer(100))
    ensures !AmountAccepted(Missing) && !AmountAccepted(Integer(0)) && !AmountAccepted(NonInteger)
  {
  }

  /**
    * A created order is stored under its fresh id with the caller's
    * merchant, the requested amount, currency INR unless one is given,
    * status `created`, and nothing else in the store changes; the response
    * echoes the stored row.
    */
  lemma CreatedOrderFields(orders: map<string, Order>, merchantId: MerchantId, req: OrderRequest,
                           id: string, now: Timestamp)
    requires OrderCreation(orders, merchantId, req, id, now).0.Ok?
    ensures var (r, orders') := OrderCreation(orders, merchantId, req, id, now);
      && id !in orders
      && orders'.Keys == orders.Keys + {id}
      && (forall k :: k in orders ==> orders'[k] == orders[k])
      && var o := orders'[id];
      && o.id == id && o.merchant_id == merchantId
      && req.amount == Integer(o.amount) && o.amount >= 100
      && o.currency == (if req.currency.None? || req.currency == Some("") then "INR" else req.currency.value)
      && o.status == "created"
      && o.receipt == req.receipt && o.notes == req.notes
      && r.value == CreatedView(o)
  {
  }

  /** Order creation keeps the store valid: rows within the schema, each under its own key. */
  lemma CreationKeepsStoreValid(orders: map<string, Order>, payments: map<string, Payment>,
                                merchantId: MerchantId, req: OrderRequest, id: string, now: Timestamp)
    requires StoreValid(orders, payments)
    ensures StoreValid(OrderCreation(orders, merchantId, req, id, now).1, payments)
  {
    var (r, orders') := OrderCreation(orders, merchantId, req, id, now);
    if r.Ok? {
      AddOrderKeepsPayments(orders, payments, orders'[id]);
    }
  }

  // ---------------------------------------------------------------------------
  // Reads
  // ---------------------------------------------------------------------------

  /**
    * The authenticated GET: `findOne` on both the id and the caller's
    * merchant id. The whole row is the response.
    */
  function ScopedOrder(orders: map<string, Order>, merchantId: MerchantId, id: string): Result<Order, ApiError>
  {
    if id in orders && orders[id].merchant_id == merchantId then Ok(orders[id]) else Err(OrderNotFound)
  }

  /**
    * In a valid store the keyed lookup is the `where` filter: it finds an
    * order exactly when some row has that id and that merchant, and then it
    * is that row.
    */
  lemma ScopedOrderIsWhereFilter(orders: map<string, Order>, merchantId: MerchantId, id: string)
    requires OrdersValid(orders)
    ensures ScopedOrder(orders, merchantId, id).Ok? <==>
            exists o :: o in orders.Values && o.id == id && o.merchant_id == merchantId
    ensures forall o :: o in orders.Values && o.id == id && o.merchant_id == merchantId ==>
            ScopedOrder(orders, merchantId, id) == Ok(o)
  {
    if exists o :: o in orders.Values && o.id == id && o.merchant_id == merchantId {
      var o :| o in orders.Values && o.id == id && o.merchant_id == merchantId;
      var k :| k in orders && orders[k] == o;
      assert k == id;
    }
    if ScopedOrder(orders, merchantId, id).Ok? {
      assert orders[id] in orders.Values;
    }
  }

  /**
    * Another merchant's order is reported exactly as if it did not exist:
    * the same 404 code and description.
    */
  lemma ForeignOrderLooksAbsent(orders: map<string, Order>, merchantId: MerchantId, id: string)
    requires id in orders && orders[id].merchant_id != merchantId
    ensures ScopedOrder(orders, merchantId, id) == ScopedOrder(orders - {id}, merchantId, id)
    ensures ScopedOrder(orders, merchantId, id) == Err(OrderNotFound)
  {
  }

  /** The public order response: four fields. */
  datatype OrderPublicView = OrderPublicView(id: string, amount: int, currency: string, status: string)

  function PublicView(o: Order): OrderPublicView
  {
    OrderPublicView(o.id, o.amount, o.currency, o.status)
  }

  /** The public GET: lookup by primary key alone, no merchant involved. */
  function PublicOrder(orders: map<string, Order>, id: string): Result<OrderPublicView, ApiError>
  {
    if id in orders then Ok(PublicView(orders[id])) else Err(OrderNotFound)
  }

  /**
    * The public view is the order restricted to id, amount, currency and
    * status: two orders give the same view exactly when they agree on those
    * four fields, so merchant, receipt, notes and timestamps never show.
    */
  lemma PublicViewIsRestriction(o1: Order, o2: Order)
    ensures PublicView(o1) == PublicView(o2) <==>
      o1.id == o2.id && o1.amount == o2.amount && o1.currency == o2.currency && o1.status == o2.status
  {
  }

  /**
    * The public read ignores ownership: whoever owns the order, the public
    * view of an order the owner can read is the restriction of what the
    * owner reads, and a missing order is the same 404 on both routes.
    */
  lemma PublicReadIgnoresOwner(orders: map<string, Order>, merchantId: MerchantId, id: string)
    ensures ScopedOrder(orders, merchantId, id).Ok? ==>
      PublicOrder(orders, id) == Ok(PublicView(ScopedOrder(orders, merchantId, id).value))
    ensures id in orders ==> PublicOrder(orders, id).Ok?
    ensures id !in orders ==> PublicOrder(orders, id) == Err(OrderNotFound) && ScopedOrder(orders, merchantId, id) == Err(OrderNotFound)
  {
  }

  /**
    * The order routes answer 400 for a rejected amount, 404 for an unknown
    * or foreign order and 500 when the insert fails.
    */
  lemma OrderErrorStatuses(orders: map<string, Order>, merchantId: MerchantId, req: OrderRequest,
                           id: string, now: Timestamp)
    ensures var r := OrderCreation(orders, merchantId, req, id, now).0;
      r.Err? ==> IsSentStatus(StatusOf(r.error))
                 && (StatusOf(r.error) == 400 <==> !AmountAccepted(req.amount))
                 && (StatusOf(r.error) == 400 || StatusOf(r.error) == 500)
    ensures var r := ScopedOrder(orders, merchantId, id);
      r.Err? ==> IsSentStatus(StatusOf(r.error)) && StatusOf(r.error) == 404
    ensures var r := PublicOrder(orders, id);
      r.Err? ==> IsSentStatus(StatusOf(r.error)) && StatusOf(r.error) == 404
  {
  }
}
