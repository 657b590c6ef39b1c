/**
  * The gateway's request handlers over its store. The store holds the
  * merchants (fixed), the orders and the payments; each handler is a method
  * that reads or updates it as the route does, proved against the
  * specification functions of the Orders and Payments modules.
  */
module Gateway {
  import opened Wrappers
  import opened Models
  import Random
  import Validation
  import Ids
  import Auth
  import Orders
  import Payments

  class Gateway {
    const merchants: seq<Merchant>
    var orders: map<string, Order>
    var payments: map<string, Payment>

    /** Every order belongs to a known merchant (the `merchant_id` foreign key). */
    ghost predicate OrdersHaveMerchants()
      reads this
    {
      forall id :: id in orders ==> exists m :: m in merchants && m.id == orders[id].merchant_id
    }

    /**
      * The store invariant: unique merchant keys, rows within the schema and
      * under their own keys, foreign keys resolved, and every payment in a
      * terminal state between requests.
      */
    ghost predicate Valid()
      reads this
    {
      && MerchantsValid(merchants)
      && StoreValid(orders, payments)
      && OrdersHaveMerchants()
      && AllSettled(payments)
    }

    constructor(ms: seq<Merchant>)
      requires MerchantsValid(ms)
      ensures Valid()
      ensures merchants == ms && orders == map[] && payments == map[]
    {
      merchants := ms;
      orders := map[];
      payments := map[];
    }

    // -------------------------------------------------------------------------
    // Orders
    // -------------------------------------------------------------------------

    /**
      * POST /api/v1/orders: authentication, the amount check, the
      * regenerate-until-unused id loop, then the insert. `attempts` are the
      * random draws of the successive ids tried.
      */
    method CreateOrder(creds: Auth.Credentials, lookupFails: bool, req: Orders.OrderRequest,
                       attempts: seq<seq<Random.Unit>>, now: Timestamp)
      returns (r: Result<Orders.OrderCreatedView, ApiError>)
      requires Valid()
      requires forall a :: a in attempts ==> |a| == Ids.RandomLength
      requires Auth.Authenticate(merchants, creds, lookupFails).Ok? && Orders.AmountAccepted(req.amount) ==>
        exists j :: 0 <= j < |attempts| && Ids.IdFrom(Ids.OrderPrefix, attempts[j]) !in orders
      modifies this
      ensures Valid() && payments == old(payments)
      ensures var a := Auth.Authenticate(merchants, creds, lookupFails);
        a.Err? ==> r == Err(a.error) && orders == old(orders)
      ensures var a := Auth.Authenticate(merchants, creds, lookupFails);
        a.Ok? && !Orders.AmountAccepted(req.amount) ==> r == Err(AmountTooSmall) && orders == old(orders)
      ensures var a := Auth.Authenticate(merchants, creds, lookupFails);
        a.Ok? && Orders.AmountAccepted(req.amount) ==>
          var id := Ids.IdFrom(Ids.OrderPrefix, attempts[Ids.FirstUnused(Ids.OrderPrefix, old(orders).Keys, attempts)]);
          && (r, orders) == Orders.OrderCreation(old(orders), a.value.id, req, id, now)
          && id !in old(orders) && Ids.IsGeneratedId(Ids.OrderPrefix, id)
    {
      var a := Auth.Authenticate(merchants, creds, lookupFails);
      if a.Err? {
        return Err(a.error);
      }
      var merchant := a.value;
      if !Orders.AmountAccepted(req.amount) {
        return Err(AmountTooSmall);
      }
      var id := Ids.GenerateUnusedId(Ids.OrderPrefix, orders.Keys, attempts);
      var order := Orders.NewOrder(id, merchant.id, req, now);
      if id in orders || !OrderRowValid(order) {
        return Err(Internal);
      }
      Orders.CreationKeepsStoreValid(orders, payments, merchant.id, req, id, now);
      orders := orders[id := order];
      r := Ok(Orders.CreatedView(order));
    }

    /**
      * GET /api/v1/orders/{id}: authentication, then the merchant-scoped
      * lookup. A merchant only ever reads one of its own orders.
      */
    method GetOrder(creds: Auth.Credentials, lookupFails: bool, id: string) returns (r: Result<Order, ApiError>)
      ensures var a := Auth.Authenticate(merchants, creds, lookupFails);
        r == if a.Err? then Err(a.error) else Orders.ScopedOrder(orders, a.value.id, id)
      ensures r.Ok? ==>
        && id in orders && r.value == orders[id]
        && (exists m :: m in merchants && m.id == r.value.merchant_id
                      && creds == Auth.Credentials(Some(m.api_key), Some(m.api_secret)))
    {
      var a := Auth.Authenticate(merchants, creds, lookupFails);
      if a.Err? {
        return Err(a.error);
      }
      Auth.AuthenticateSound(merchants, creds, lookupFails);
      r := Orders.ScopedOrder(orders, a.value.id, id);
    }

    // -------------------------------------------------------------------------
    // Payments
    // -------------------------------------------------------------------------

    /**
      * `processPayment`: picks the delay and the outcome, waits, and saves
      * the record as `success`, or as `failed` with the decline code and
      * description. Returns the delay waited (the wait itself is not
      * modelled).
      */
    method ProcessPayment(id: string, cfg: Payments.Config, delayDraw: Random.Unit, outcomeDraw: Random.Unit,
                          savedAt: Timestamp)
      returns (delay: int)
      requires id in payments && payments[id].status == Processing
      requires payments[id].error_code.None? && payments[id].error_description.None?
      modifies this
      ensures var s := Payments.Simulate(cfg, old(payments)[id].payment_method, delayDraw, outcomeDraw);
        && delay == s.delay
        && payments == old(payments)[id := Payments.Settle(old(payments)[id], s.success, savedAt)]
      ensures IsSettled(payments[id]) && orders == old(orders)
    {
      var payment := payments[id];
      var successRate: real;
      if payment.payment_method == Upi {
        successRate := cfg.upiSuccessRate;
      } else {
        successRate := cfg.cardSuccessRate;
      }
      if cfg.testMode {
        delay := cfg.testProcessingDelay;
      } else {
        var min := cfg.processingDelayMin;
        var max := cfg.processingDelayMax;
        delay := Random.Scale(delayDraw, max - min + 1) + min;
      }
      var isSuccess: bool;
      if cfg.testMode {
        isSuccess := cfg.testPaymentSuccess;
      } else {
        isSuccess := outcomeDraw < successRate;
      }
      if isSuccess {
        payment := payment.(status := Success);
      } else {
        payment := payment.(status := Failed, error_code := Some(DeclinedCode),
                            error_description := Some(DeclinedDescription));
      }
      payment := payment.(updated_at := savedAt);
      Payments.SettleIsTerminal(payments[id], isSuccess, savedAt);
      payments := payments[id := payment];
    }

    /**
      * The checks `handleCreatePayment` makes before it inserts anything: the
      * order lookup and ownership check, then the UPI or card fields, in the
      * handler's order. `merchant` is None on the public route.
      */
    method AdmitPayment(merchant: Option<Merchant>, req: Payments.PaymentRequest, today: Validation.YearMonth)
      returns (r: Result<Payments.Draft, ApiError>)
      ensures r == Payments.Admit(orders, MerchantIdOf(merchant), req, today)
    {
      if req.order_id !in orders {
        return Err(OrderNotFound);
      }
      var order := orders[req.order_id];
      if merchant.Some? && order.merchant_id != merchant.value.id {
        return Err(OrderNotFound);
      }
      if req.method_name == "upi" {
        if !Truthy(req.vpa) || !Validation.ValidateVPA(req.vpa.value) {
          return Err(InvalidVpa);
        }
        r := Ok(Payments.Draft(req.order_id, order.merchant_id, order.amount, order.currency, Upi,
                               req.vpa, None, None));
      } else if req.method_name == "card" {
        if req.card.None? {
          return Err(CardMissing);
        }
        var card := req.card.value;
        if !Truthy(card.holder_name) || !Truthy(card.cvv) {
          return Err(CardIncomplete);
        }
        var luhn := Validation.ValidateCardLuhn(card.number);
        if !luhn {
          return Err(InvalidCard);
        }
        if !Validation.ValidateCardExpiry(card.expiry_month, card.expiry_year, today) {
          return Err(ExpiredCard);
        }
        r := Ok(Payments.Draft(req.order_id, order.merchant_id, order.amount, order.currency, Card,
                               None, Some(Validation.DetectCardNetwork(card.number)),
                               Some(Payments.Last4(Validation.Clean(card.number)))));
      } else {
        r := Err(InvalidMethod);
      }
    }

    /**
      * The second half of `handleCreatePayment`, once the request is admitted
      * and the id drawn: the insert of the `processing` record (refused by the
      * store on a key collision or a row beyond the schema), the settlement,
      * and the response built from the saved record.
      */
    method InsertAndSettle(merchant: Option<MerchantId>, req: Payments.PaymentRequest, today: Validation.YearMonth,
                           draft: Payments.Draft, id: string, cfg: Payments.Config,
                           delayDraw: Random.Unit, outcomeDraw: Random.Unit,
                           createdAt: Timestamp, settledAt: Timestamp)
      returns (r: Result<Payments.PaymentView, ApiError>)
      requires Valid() && Payments.Admit(orders, merchant, req, today) == Ok(draft)
      modifies this
      ensures Valid() && orders == old(orders)
      ensures (r, payments) == Payments.PaymentCreation(old(orders), old(payments), merchant, req, today, id, cfg,
                                                        delayDraw, outcomeDraw, createdAt, settledAt)
    {
      var payment := Payments.NewPayment(draft, id, createdAt);
      if id in payments || !PaymentRowValid(payment) {
        return Err(Internal);
      }
      ghost var settled := Payments.Settle(payment, Payments.Simulate(cfg, draft.payment_method, delayDraw, outcomeDraw).success, settledAt);
      assert Payments.PaymentCreation(orders, payments, merchant, req, today, id, cfg, delayDraw, outcomeDraw, createdAt, settledAt)
          == (Ok(Payments.CreatedView(settled)), payments[id := settled]);
      Payments.CreationKeepsStoreValid(orders, payments, merchant, req, today, id, cfg,
                                       delayDraw, outcomeDraw, createdAt, settledAt);
      payments := payments[id := payment];
      var _ := ProcessPayment(id, cfg, delayDraw, outcomeDraw, settledAt);
      assert payments == old(payments)[id := settled];
      r := Ok(Payments.CreatedView(payments[id]));
    }

    /**
      * `handleCreatePayment`: the admission checks, the id, then the insert
      * and settlement. `merchant` is None on the public route.
      */
    method HandleCreatePayment(merchant: Option<Merchant>, req: Payments.PaymentRequest, cfg: Payments.Config,
                               idDraws: seq<Random.Unit>, delayDraw: Random.Unit, outcomeDraw: Random.Unit,
                               today: Validation.YearMonth, createdAt: Timestamp, settledAt: Timestamp)
      returns (r: Result<Payments.PaymentView, ApiError>)
      requires Valid() && |idDraws| == Ids.RandomLength
      modifies this
      ensures Valid() && orders == old(orders)
      ensures (r, payments) == Payments.PaymentCreation(old(orders), old(payments), MerchantIdOf(merchant), req, today,
                                                        Ids.IdFrom(Ids.PaymentPrefix, idDraws), cfg, delayDraw, outcomeDraw,
                                                        createdAt, settledAt)
    {
      var admitted := AdmitPayment(merchant, req, today);
      if admitted.Err? {
        return Err(admitted.error);
      }
      var id := Ids.GenerateId(Ids.PaymentPrefix, idDraws);
      r := InsertAndSettle(MerchantIdOf(merchant), req, today, admitted.value, id, cfg,
                           delayDraw, outcomeDraw, createdAt, settledAt);
    }

    /** POST /api/v1/payments: authentication, then the shared handler with the merchant bound. */
    method CreatePayment(creds: Auth.Credentials, lookupFails: bool, req: Payments.PaymentRequest,
                         cfg: Payments.Config, idDraws: seq<Random.Unit>, delayDraw: Random.Unit,
                         outcomeDraw: Random.Unit, today: Validation.YearMonth,
                         createdAt: Timestamp, settledAt: Timestamp)
      returns (r: Result<Payments.PaymentView, ApiError>)
      requires Valid() && |idDraws| == Ids.RandomLength
      modifies this
      ensures Valid() && orders == old(orders)
      ensures var a := Auth.Authenticate(merchants, creds, lookupFails);
        a.Err? ==> r == Err(a.error) && payments == old(payments)
      ensures var a := Auth.Authenticate(merchants, creds, lookupFails);
        a.Ok? ==> (r, payments) == Payments.PaymentCreation(old(orders), old(payments), Some(a.value.id), req, today,
                                                          Ids.IdFrom(Ids.PaymentPrefix, idDraws), cfg, delayDraw,
                                                          outcomeDraw, createdAt, settledAt)
    {
      var a := Auth.Authenticate(merchants, creds, lookupFails);
      if a.Err? {
        return Err(a.error);
      }
      r := HandleCreatePayment(Some(a.value), req, cfg, idDraws, delayDraw, outcomeDraw, today, createdAt, settledAt);
    }

    /** POST /api/v1/payments/public: the shared handler with no merchant bound. */
    method CreatePublicPayment(req: Payments.PaymentRequest, cfg: Payments.Config, idDraws: seq<Random.Unit>,
                               delayDraw: Random.Unit, outcomeDraw: Random.Unit, today: Validation.YearMonth,
                               createdAt: Timestamp, settledAt: Timestamp)
      returns (r: Result<Payments.PaymentView, ApiError>)
      requires Valid() && |idDraws| == Ids.RandomLength
      modifies this
      ensures Valid() && orders == old(orders)
      ensures (r, payments) == Payments.PaymentCreation(old(orders), old(payments), None, req, today,
                                                        Ids.IdFrom(Ids.PaymentPrefix, idDraws), cfg, delayDraw,
                                                        outcomeDraw, createdAt, settledAt)
    {
      r := HandleCreatePayment(None, req, cfg, idDraws, delayDraw, outcomeDraw, today, createdAt, settledAt);
    }

    /**
      * GET /api/v1/payments/{id}: authentication, then the merchant-scoped
      * lookup. A merchant only ever reads one of its own payments.
      */
    method GetPayment(creds: Auth.Credentials, lookupFails: bool, id: string)
      returns (r: Result<Payments.PaymentView, ApiError>)
      ensures var a := Auth.Authenticate(merchants, creds, lookupFails);
        r == if a.Err? then Err(a.error) else Payments.ScopedPayment(payments, a.value.id, id)
      ensures r.Ok? ==>
        && id in payments && r.value == Payments.DetailView(payments[id])
        && (exists m :: m in merchants && m.id == payments[id].merchant_id
                      && creds == Auth.Credentials(Some(m.api_key), Some(m.api_secret)))
    {
      var a := Auth.Authenticate(merchants, creds, lookupFails);
      if a.Err? {
        return Err(a.error);
      }
      Auth.AuthenticateSound(merchants, creds, lookupFails);
      r := Payments.ScopedPayment(payments, a.value.id, id);
    }

    /**
      * GET /api/v1/payments: authentication, then the caller's payments as
      * the store returns them (`rows`, newest first), each mapped to its
      * list entry.
      */
    method ListPayments(creds: Auth.Credentials, lookupFails: bool, rows: seq<Payment>)
      returns (r: Result<seq<Payments.PaymentListItem>, ApiError>)
      requires Valid()
      requires var a := Auth.Authenticate(merchants, creds, lookupFails);
        a.Ok? ==> Payments.IsListing(payments, a.value.id, rows)
      ensures var a := Auth.Authenticate(merchants, creds, lookupFails);
        r == if a.Err? then Err(a.error) else Ok(Payments.ListResponse(rows))
      ensures r.Ok? ==>
        && (forall i :: 0 <= i < |r.value| ==> r.value[i].id in payments)
        && (forall i, j :: 0 <= i < j < |r.value| ==> r.value[i].created_at >= r.value[j].created_at)
    {
      var a := Auth.Authenticate(merchants, creds, lookupFails);
      if a.Err? {
        return Err(a.error);
      }
      Payments.ListIsScopedAndOrdered(payments, a.value.id, rows);
      r := Ok(Payments.ListResponse(rows));
    }
  }

  /** The merchant id the handler compares against, when a merchant is bound. */
  function MerchantIdOf(merchant: Option<Merchant>): Option<MerchantId>
  {
    if merchant.Some? then Some(merchant.value.id) else None
  }
}
