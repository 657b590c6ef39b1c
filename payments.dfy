/**
  * Payments: the checks a create-payment request goes through, the record it
  * creates, the simulated settlement that moves that record to a terminal
  * state, and the three ways of reading payments back.
  */
module Payments {
  import opened Wrappers
  import opened Models
  import Validation
  import Random

  // ---------------------------------------------------------------------------
  // Requests
  // ---------------------------------------------------------------------------

  /**
    * The `card` object of a request. Month and year are taken as already
    * parsed integers.
    */
  datatype CardInput = CardInput(
    number: string,
    expiry_month: int,
    expiry_year: int,
    cvv: Option<string>,
    holder_name: Option<string>)

  /** A create-payment body; `method_name` is its `method` field. */
  datatype PaymentRequest = PaymentRequest(
    order_id: string,
    method_name: string,
    vpa: Option<string>,
    card: Option<CardInput>)

  /**
    * The record being built before it gets an id (`paymentData`): what is
    * copied from the order and what the method contributes.
    */
  datatype Draft = Draft(
    order_id: string,
    merchant_id: MerchantId,
    amount: int,
    currency: string,
    payment_method: PayMethod,
    vpa: Option<string>,
    card_network: Option<Validation.CardNetwork>,
    card_last4: Option<string>)

  /** `slice(-4)`: the last four characters, or the whole string when shorter. */
  function Last4(s: string): (r: string)
    ensures |r| == if |s| < 4 then |s| else 4
    ensures s == s[..|s| - |r|] + r
  {
    if |s| < 4 then s else s[|s| - 4..]
  }

  /**
    * The checks of the create-payment handler, in its order: the order must
    * exist, and belong to the merchant when one is bound; then the method's
    * fields — a VPA for `upi`; for `card` the card object, then holder name
    * and cvv, then the Luhn check, then the expiry; any other method is
    * refused. On success, the draft record.
    */
  function Admit(orders: map<string, Order>, merchant: Option<MerchantId>, req: PaymentRequest,
                 today: Validation.YearMonth): Result<Draft, ApiError>
  {
    if req.order_id !in orders then Err(OrderNotFound)
    else
      var order := orders[req.order_id];
      if merchant.Some? && order.merchant_id != merchant.value then Err(OrderNotFound)
      else if req.method_name == "upi" then
        if !Truthy(req.vpa) || !Validation.ValidateVPA(req.vpa.value) then Err(InvalidVpa)
        else Ok(Draft(req.order_id, order.merchant_id, order.amount, order.currency, Upi,
                      req.vpa, None, None))
      else if req.method_name == "card" then
        if req.card.None? then Err(CardMissing)
        else
          var card := req.card.value;
          if !Truthy(card.holder_name) || !Truthy(card.cvv) then Err(CardIncomplete)
          else if !Validation.LuhnValid(card.number) then Err(InvalidCard)
          else if !Validation.ValidateCardExpiry(card.expiry_month, card.expiry_year, today) then Err(ExpiredCard)
          else Ok(Draft(req.order_id, order.merchant_id, order.amount, order.currency, Card,
                        None, Some(Validation.DetectCardNetwork(card.number)),
                        Some(Last4(Validation.Clean(card.number)))))
      else Err(InvalidMethod)
  }

  /** The record `Payment.create` is given: the draft, the id, status `processing`. */
  function NewPayment(d: Draft, id: string, at: Timestamp): Payment
  {
    Payment(id, d.order_id, d.merchant_id, d.amount, d.currency, d.payment_method, Processing,
            d.vpa, d.card_network, d.card_last4, None, None, at, at)
  }

  // ---------------------------------------------------------------------------
  // Settlement
  // ---------------------------------------------------------------------------

  /**
    * The settlement settings read from the environment: TEST_MODE, the two
    * success rates, TEST_PROCESSING_DELAY, TEST_PAYMENT_SUCCESS and the
    * processing-delay bounds.
    */
  datatype Config = Config(
    testMode: bool,
    upiSuccessRate: real,
    cardSuccessRate: real,
    testProcessingDelay: int,
    testPaymentSuccess: bool,
    processingDelayMin: int,
    processingDelayMax: int)

  /** The settings when none of the variables is set. */
  const DefaultConfig := Config(false, 0.9, 0.95, 1000, false, 5000, 10000)

  /** The success rate of a method: the UPI rate for UPI, the card rate otherwise. */
  function SuccessRate(cfg: Config, m: PayMethod): real
  {
    if m == Upi then cfg.upiSuccessRate else cfg.cardSuccessRate
  }

  /** The simulated processing: how long it waits (ms) and whether the bank accepts. */
  datatype Settlement = Settlement(delay: int, success: bool)

  /**
    * `processPayment`'s decisions, with its two `Math.random()` draws as
    * inputs: in test mode both come from the configuration; otherwise the
    * delay is a draw in [min, max] and the outcome a draw below the rate.
    */
  function Simulate(cfg: Config, m: PayMethod, delayDraw: Random.Unit, outcomeDraw: Random.Unit): Settlement
  {
    var delay :=
      if cfg.testMode then cfg.testProcessingDelay
      else Random.Scale(delayDraw, cfg.processingDelayMax - cfg.processingDelayMin + 1) + cfg.processingDelayMin;
    var success :=
      if cfg.testMode then cfg.testPaymentSuccess
      else outcomeDraw < SuccessRate(cfg, m);
    Settlement(delay, success)
  }

  /** In test mode the draws do not matter: delay and outcome are the configured ones. */
  lemma TestModeIsDeterministic(cfg: Config, m: PayMethod, d1: Random.Unit, o1: Random.Unit, d2: Random.Unit, o2: Random.Unit)
    requires cfg.testMode
    ensures Simulate(cfg, m, d1, o1) == Simulate(cfg, m, d2, o2)
    ensures Simulate(cfg, m, d1, o1) == Settlement(cfg.testProcessingDelay, cfg.testPaymentSuccess)
  {
  }

  /** Outside test mode the delay lies within the configured bounds. */
  lemma DelayWithinBounds(cfg: Config, m: PayMethod, delayDraw: Random.Unit, outcomeDraw: Random.Unit)
    requires !cfg.testMode && cfg.processingDelayMin <= cfg.processingDelayMax
    ensures cfg.processingDelayMin <= Simulate(cfg, m, delayDraw, outcomeDraw).delay <= cfg.processingDelayMax
  {
  }

  /**
    * Outside test mode the outcome is a threshold on the draw: success for
    * one draw means success for every smaller draw, a rate of 1 or more
    * always succeeds and a rate of 0 or less never does.
    */
  lemma OutcomeIsThreshold(cfg: Config, m: PayMethod, d: Random.Unit, o1: Random.Unit, o2: Random.Unit)
    requires !cfg.testMode
    ensures Simulate(cfg, m, d, o1).success && o2 <= o1 ==> Simulate(cfg, m, d, o2).success
    ensures SuccessRate(cfg, m) >= 1.0 ==> Simulate(cfg, m, d, o1).success
    ensures SuccessRate(cfg, m) <= 0.0 ==> !Simulate(cfg, m, d, o1).success
  {
  }

  /** With nothing configured: UPI succeeds below 0.9, cards below 0.95, after 5 to 10 seconds. */
  lemma DefaultSettlement(m: PayMethod, d: Random.Unit, o: Random.Unit)
    ensures var s := Simulate(DefaultConfig, m, d, o);
      && 5000 <= s.delay <= 10000
      && (s.success <==> o < (if m == Upi then 0.9 else 0.95))
  {
    DelayWithinBounds(DefaultConfig, m, d, o);
  }

  /**
    * The record after `processPayment` saves it: `success`, or `failed` with
    * the decline code and description; `updated_at` is the save time.
    */
  function Settle(p: Payment, success: bool, at: Timestamp): Payment
  {
    if success then p.(status := Success, updated_at := at)
    else p.(status := Failed, error_code := Some(DeclinedCode),
            error_description := Some(DeclinedDescription), updated_at := at)
  }

  /**
    * Settling a fresh `processing` record leaves it in exactly one terminal
    * state — `success` exactly when the bank accepted — and touches no
    * field but the status, the error fields and `updated_at`.
    */
  lemma SettleIsTerminal(p: Payment, success: bool, at: Timestamp)
    requires p.status == Processing && p.error_code.None? && p.error_description.None?
    ensures var s := Settle(p, success, at);
      && IsSettled(s)
      && s.status != Processing && s.status != Created
      && (s.status == Success <==> success)
      && s.(status := Processing, error_code := None, error_description := None, updated_at := p.updated_at) == p
  {
  }

  // ---------------------------------------------------------------------------
  // Creation
  // ---------------------------------------------------------------------------

  /** The method-specific part of a payment response. */
  datatype MethodDetails =
    | UpiDetails(vpa: Option<string>)
    | CardDetails(card_network: Option<Validation.CardNetwork>, card_last4: Option<string>)

  /**
    * A payment response of the create and authenticated GET routes;
    * `updated_at` appears only in the GET response.
    */
  datatype PaymentView = PaymentView(
    id: string,
    order_id: string,
    amount: int,
    currency: string,
    payment_method: PayMethod,
    status: PaymentStatus,
    created_at: Timestamp,
    updated_at: Option<Timestamp>,
    details: MethodDetails)

  function Details(p: Payment): MethodDetails
  {
    if p.payment_method == Upi then UpiDetails(p.vpa) else CardDetails(p.card_network, p.card_last4)
  }

  /** The create response. */
  function CreatedView(p: Payment): PaymentView
  {
    PaymentView(p.id, p.order_id, p.amount, p.currency, p.payment_method, p.status, p.created_at, None, Details(p))
  }

  /** The authenticated GET response. */
  function DetailView(p: Payment): PaymentView
  {
    PaymentView(p.id, p.order_id, p.amount, p.currency, p.payment_method, p.status, p.created_at,
                Some(p.updated_at), Details(p))
  }

  /**
    * The whole create-payment handler: the response and the payment store
    * afterwards, given the generated id, the settlement outcome and the
    * times of the insert and of the final save. The insert fails — a 500 —
    * when the id is already taken (the id is not checked for collisions) or
    * the row breaks the schema (a VPA longer than 255 characters).
    */
  function PaymentCreation(orders: map<string, Order>, payments: map<string, Payment>,
                           merchant: Option<MerchantId>, req: PaymentRequest, today: Validation.YearMonth,
                           id: string, cfg: Config, delayDraw: Random.Unit, outcomeDraw: Random.Unit,
                           createdAt: Timestamp, settledAt: Timestamp)
    : (Result<PaymentView, ApiError>, map<string, Payment>)
  {
    match Admit(orders, merchant, req, today)
    case Err(e) => (Err(e), payments)
    case Ok(d) =>
      var p := NewPayment(d, id, createdAt);
      if id in payments || !PaymentRowValid(p) then (Err(Internal), payments)
      else
        var s := Settle(p, Simulate(cfg, d.payment_method, delayDraw, outcomeDraw).success, settledAt);
        (Ok(CreatedView(s)), payments[id := s])
  }

  /**
    * Every rejection happens before the insert: the store is unchanged, and
    * the error is one of the order and method-field errors.
    */
  lemma RejectionLeavesStore(orders: map<string, Order>, payments: map<string, Payment>,
                             merchant: Option<MerchantId>, req: PaymentRequest, today: Validation.YearMonth,
                             id: string, cfg: Config, delayDraw: Random.Unit, outcomeDraw: Random.Unit,
      createdAt: Timestamp, settledAt: Timestamp)
    requires Admit(orders, merchant, req, today).Err?
    ensures var (r, payments') := PaymentCreation(orders, payments, merchant, req, today, id, cfg, delayDraw, outcomeDraw, createdAt, settledAt);
      && payments' == payments
      && r.Err?
      && r.error in {OrderNotFound, InvalidVpa, CardMissing, CardIncomplete, InvalidCard, ExpiredCard, InvalidMethod}
  {
  }

  /**
    * Another merchant's order is answered exactly like a missing one: the
    * same 404, whatever else the request says.
    */
  lemma ForeignOrderLooksAbsent(orders: map<string, Order>, merchantId: MerchantId, req: PaymentRequest,
                                today: Validation.YearMonth)
    requires req.order_id in orders && orders[req.order_id].merchant_id != merchantId
    ensures Admit(orders, Some(merchantId), req, today) == Admit(orders - {req.order_id}, Some(merchantId), req, today)
    ensures Admit(orders, Some(merchantId), req, today) == Err(OrderNotFound)
  {
  }

  /**
    * The public route is the merchant route without the ownership check:
    * for the owner's own order both give the same response and store, and
    * the public route accepts an order of any merchant.
    */
  lemma PublicCreateSkipsOwnership(orders: map<string, Order>, payments: map<string, Payment>,
                                   req: PaymentRequest, today: Validation.YearMonth,
                                   id: string, cfg: Config, delayDraw: Random.Unit, outcomeDraw: Random.Unit,
      createdAt: Timestamp, settledAt: Timestamp)
    requires req.order_id in orders
    ensures var owner := orders[req.order_id].merchant_id;
      PaymentCreation(orders, payments, Some(owner), req, today, id, cfg, delayDraw, outcomeDraw, createdAt, settledAt)
        == PaymentCreation(orders, payments, None, req, today, id, cfg, delayDraw, outcomeDraw, createdAt, settledAt)
    ensures Admit(orders, None, req, today) != Err(OrderNotFound)
  {
  }

  /**
    * The card checks run in order: a missing card, then missing holder name
    * or cvv, then the Luhn check, then the expiry. A number that fails the
    * Luhn check is INVALID_CARD even when the card has also expired.
    */
  lemma CardChecksInOrder(orders: map<string, Order>, merchant: Option<MerchantId>, req: PaymentRequest,
                          today: Validation.YearMonth)
    requires req.order_id in orders
    requires merchant.None? || merchant.value == orders[req.order_id].merchant_id
    requires req.method_name == "card"
    ensures req.card.None? ==> Admit(orders, merchant, req, today) == Err(CardMissing)
    ensures req.card.Some? && (!Truthy(req.card.value.holder_name) || !Truthy(req.card.value.cvv)) ==>
      Admit(orders, merchant, req, today) == Err(CardIncomplete)
    ensures req.card.Some? && Truthy(req.card.value.holder_name) && Truthy(req.card.value.cvv)
            && !Validation.LuhnValid(req.card.value.number) ==>
      Admit(orders, merchant, req, today) == Err(InvalidCard)
    ensures req.card.Some? && Truthy(req.card.value.holder_name) && Truthy(req.card.value.cvv)
            && Validation.LuhnValid(req.card.value.number)
            && !Validation.ValidateCardExpiry(req.card.value.expiry_month, req.card.value.expiry_year, today) ==>
      Admit(orders, merchant, req, today) == Err(ExpiredCard)
  {
  }

  /**
    * A card payment keeps only the network and the last four digits of the
    * cleaned number: those are four decimal digits, and holder name, cvv and
    * expiry do not reach the record at all — two accepted requests that
    * differ only in them create the same record.
    */
  lemma CardDataMinimized(orders: map<string, Order>, merchant: Option<MerchantId>, req: PaymentRequest,
                          other: CardInput, today: Validation.YearMonth)
    requires req.card.Some? && Admit(orders, merchant, req, today).Ok? && req.method_name == "card"
    requires other.number == req.card.value.number
    requires Admit(orders, merchant, req.(card := Some(other)), today).Ok?
    ensures var d := Admit(orders, merchant, req, today).value;
      && d.vpa.None?
      && d.card_network == Some(Validation.DetectCardNetwork(req.card.value.number))
      && d.card_last4.Some? && |d.card_last4.value| == 4 && Validation.AllDigits(d.card_last4.value)
      && d.card_last4.value == Validation.Clean(req.card.value.number)[|Validation.Clean(req.card.value.number)| - 4..]
    ensures Admit(orders, merchant, req.(card := Some(other)), today) == Admit(orders, merchant, req, today)
  {
    var c := Validation.Clean(req.card.value.number);
    assert Validation.IsCardDigits(c);
    var last := Last4(c);
    forall i | 0 <= i < 4 ensures Validation.IsAsciiDigit(last[i]) {
      assert last[i] == c[|c| - 4 + i];
    }
  }

  /**
    * An accepted request creates exactly one record, under the fresh id,
    * holding the order's merchant, amount and currency (never values from
    * the request), already settled — `success` exactly when the bank
    * accepted — and leaves every other payment as it was. The response
    * reports the terminal status of the stored record.
    */
  lemma AcceptedCreatesSettledRecord(orders: map<string, Order>, payments: map<string, Payment>,
                                     merchant: Option<MerchantId>, req: PaymentRequest,
                                     today: Validation.YearMonth,
                                     id: string, cfg: Config, delayDraw: Random.Unit, outcomeDraw: Random.Unit,
      createdAt: Timestamp, settledAt: Timestamp)
    requires Admit(orders, merchant, req, today).Ok?
    requires id !in payments && PaymentRowValid(NewPayment(Admit(orders, merchant, req, today).value, id, createdAt))
    ensures var (r, payments') := PaymentCreation(orders, payments, merchant, req, today, id, cfg, delayDraw, outcomeDraw, createdAt, settledAt);
      && r.Ok?
      && payments'.Keys == payments.Keys + {id}
      && (forall k :: k in payments ==> payments'[k] == payments[k])
      && var p := payments'[id];
      && var order := orders[req.order_id];
      && p.id == id && p.order_id == req.order_id
      && p.merchant_id == order.merchant_id && p.amount == order.amount && p.currency == order.currency
      && IsSettled(p)
      && (p.status == Success <==> Simulate(cfg, p.payment_method, delayDraw, outcomeDraw).success)
      && p.created_at == createdAt && p.updated_at == settledAt
      && r.value == CreatedView(p)
  {
    var d := Admit(orders, merchant, req, today).value;
    SettleIsTerminal(NewPayment(d, id, createdAt), Simulate(cfg, d.payment_method, delayDraw, outcomeDraw).success, settledAt);
  }

  /**
    * An accepted request whose insert the store refuses — the id is taken
    * or the row breaks the schema — is a 500 and the store is unchanged.
    */
  lemma RefusedInsertIsInternalError(orders: map<string, Order>, payments: map<string, Payment>,
                                     merchant: Option<MerchantId>, req: PaymentRequest,
                                     today: Validation.YearMonth,
                                     id: string, cfg: Config, delayDraw: Random.Unit, outcomeDraw: Random.Unit,
      createdAt: Timestamp, settledAt: Timestamp)
    requires Admit(orders, merchant, req, today).Ok?
    requires id in payments || !PaymentRowValid(NewPayment(Admit(orders, merchant, req, today).value, id, createdAt))
    ensures PaymentCreation(orders, payments, merchant, req, today, id, cfg, delayDraw, outcomeDraw, createdAt, settledAt) == (Err(Internal), payments)
  {
  }

  /**
    * Payment creation keeps the store valid and every payment settled: the
    * new record refers to its order, copies its merchant, amount and
    * currency, and carries the fields its method calls for.
    */
  lemma CreationKeepsStoreValid(orders: map<string, Order>, payments: map<string, Payment>,
                                merchant: Option<MerchantId>, req: PaymentRequest, today: Validation.YearMonth,
                                id: string, cfg: Config, delayDraw: Random.Unit, outcomeDraw: Random.Unit,
      createdAt: Timestamp, settledAt: Timestamp)
    requires StoreValid(orders, payments) && AllSettled(payments)
    ensures var payments' := PaymentCreation(orders, payments, merchant, req, today, id, cfg, delayDraw, outcomeDraw, createdAt, settledAt).1;
      StoreValid(orders, payments') && AllSettled(payments')
  {
    var (r, payments') := PaymentCreation(orders, payments, merchant, req, today, id, cfg, delayDraw, outcomeDraw, createdAt, settledAt);
    if r.Ok? {
      var d := Admit(orders, merchant, req, today).value;
      AcceptedCreatesSettledRecord(orders, payments, merchant, req, today, id, cfg, delayDraw, outcomeDraw, createdAt, settledAt);
      var p := payments'[id];
      if d.payment_method == Card {
        CardDataMinimized(orders, merchant, req, req.card.value, today);
      }
      assert PaymentValidIn(orders, p, id);
      forall k | k in payments' ensures PaymentValidIn(orders, payments'[k], k) && IsSettled(payments'[k]) {
        if k != id {
          assert payments'[k] == payments[k];
        }
      }
    }
  }

  // ---------------------------------------------------------------------------
  // Reads
  // ---------------------------------------------------------------------------

  /** The authenticated GET: `findOne` on the id and the caller's merchant id. */
  function ScopedPayment(payments: map<string, Payment>, merchantId: MerchantId, id: string): Result<PaymentView, ApiError>
  {
    if id in payments && payments[id].merchant_id == merchantId then Ok(DetailView(payments[id]))
    else Err(PaymentNotFound)
  }

  /**
    * Another merchant's payment is reported exactly as if it did not exist,
    * and a payment the caller owns is returned with all its response fields.
    */
  lemma ScopedPaymentIsOwnersOnly(payments: map<string, Payment>, merchantId: MerchantId, id: string)
    ensures id in payments && payments[id].merchant_id != merchantId ==>
      ScopedPayment(payments, merchantId, id) == ScopedPayment(payments - {id}, merchantId, id) == Err(PaymentNotFound)
    ensures ScopedPayment(payments, merchantId, id).Ok? ==>
      && id in payments && payments[id].merchant_id == merchantId
      && var v := ScopedPayment(payments, merchantId, id).value;
      && v.id == payments[id].id && v.status == payments[id].status && v.amount == payments[id].amount
      && v.updated_at == Some(payments[id].updated_at)
  {
  }

  /**
    * The public GET response: id, status, method, amount and currency, plus
    * `error_description` when the payment failed. The outer Option says
    * whether that key is present at all.
    */
  datatype PaymentPublicView = PaymentPublicView(
    id: string,
    status: PaymentStatus,
    payment_method: PayMethod,
    amount: int,
    currency: string,
    error_description: Option<Option<string>>)

  function PublicView(p: Payment): PaymentPublicView
  {
    PaymentPublicView(p.id, p.status, p.payment_method, p.amount, p.currency,
                      if p.status == Failed then Some(p.error_description) else None)
  }

  /** The public GET: lookup by primary key alone, no merchant involved. */
  function PublicPayment(payments: map<string, Payment>, id: string): Result<PaymentPublicView, ApiError>
  {
    if id in payments then Ok(PublicView(payments[id])) else Err(PaymentNotFound)
  }

  /**
    * The public view shows five fields and the error description of a failed
    * payment, nothing else: two payments agreeing on those give the same view,
    * whatever their order, merchant, VPA, card data and timestamps. In a
    * settled store a failed payment shows the decline description.
    */
  lemma PublicViewIsRestriction(p1: Payment, p2: Payment)
    ensures PublicView(p1) == PublicView(p2) <==>
      && p1.id == p2.id && p1.status == p2.status && p1.payment_method == p2.payment_method
      && p1.amount == p2.amount && p1.currency == p2.currency
      && (p1.status == Failed ==> p1.error_description == p2.error_description)
    ensures IsSettled(p1) ==>
      PublicView(p1).error_description == if p1.status == Failed then Some(Some(DeclinedDescription)) else None
  {
  }

  /** The public read answers for any merchant's payment, and 404s only on an unknown id. */
  lemma PublicReadIgnoresOwner(payments: map<string, Payment>, merchantId: MerchantId, id: string)
    ensures PublicPayment(payments, id).Ok? <==> id in payments
    ensures PublicPayment(payments, id).Err? ==> PublicPayment(payments, id) == Err(PaymentNotFound)
    ensures ScopedPayment(payments, merchantId, id).Ok? ==> PublicPayment(payments, id).Ok?
  {
  }

  /** A list entry: every response field of the payment, both method's columns included. */
  datatype PaymentListItem = PaymentListItem(
    id: string,
    order_id: string,
    amount: int,
    currency: string,
    payment_method: PayMethod,
    status: PaymentStatus,
    created_at: Timestamp,
    vpa: Option<string>,
    card_network: Option<Validation.CardNetwork>,
    card_last4: Option<string>)

  function ListItem(p: Payment): PaymentListItem
  {
    PaymentListItem(p.id, p.order_id, p.amount, p.currency, p.payment_method, p.status, p.created_at,
                    p.vpa, p.card_network, p.card_last4)
  }

  /** The merchant's payments: the rows `findAll` selects. */
  function Owned(payments: map<string, Payment>, merchantId: MerchantId): set<Payment>
  {
    set id | id in payments && payments[id].merchant_id == merchantId :: payments[id]
  }

  /**
    * A result `findAll` may return for the list query: each of the
    * merchant's payments once, nothing else, newest first. Rows with equal
    * `created_at` may come in any order.
    */
  predicate IsListing(payments: map<string, Payment>, merchantId: MerchantId, rows: seq<Payment>)
  {
    && (forall p :: p in rows ==> p in Owned(payments, merchantId))
    && (forall p :: p in Owned(payments, merchantId) ==> p in rows)
    && (forall i, j :: 0 <= i < j < |rows| ==> rows[i] != rows[j])
    && (forall i, j :: 0 <= i < j < |rows| ==> rows[i].created_at >= rows[j].created_at)
  }

  /** The list response: each row mapped to its list entry. */
  function ListResponse(rows: seq<Payment>): (items: seq<PaymentListItem>)
    ensures |items| == |rows|
    ensures forall i :: 0 <= i < |rows| ==> items[i] == ListItem(rows[i])
  {
    if |rows| == 0 then [] else [ListItem(rows[0])] + ListResponse(rows[1..])
  }

  /**
    * A listing always exists: the merchant's payments in a newest-first
    * order, each once.
    */
  lemma ListingExists(payments: map<string, Payment>, merchantId: MerchantId)
    ensures IsListing(payments, merchantId, NewestFirst(Owned(payments, merchantId)))
  {
  }

  /** The rows of `s`, newest first: a latest row, then the rest. */
  ghost function NewestFirst(s: set<Payment>): (rows: seq<Payment>)
    ensures forall p :: p in rows <==> p in s
    ensures forall i, j :: 0 <= i < j < |rows| ==> rows[i] != rows[j]
    ensures forall i, j :: 0 <= i < j < |rows| ==> rows[i].created_at >= rows[j].created_at
    decreases |s|
  {
    if s == {} then []
    else
      LatestExists(s);
      var p :| p in s && forall q :: q in s ==> q.created_at <= p.created_at;
      var rest := NewestFirst(s - {p});
      assert forall i :: 0 <= i < |rest| ==> rest[i] in s - {p};
      [p] + rest
  }

  /** A non-empty set of payments has a latest one. */
  lemma {:induction false} LatestExists(s: set<Payment>)
    requires s != {}
    ensures exists p :: p in s && forall q :: q in s ==> q.created_at <= p.created_at
    decreases |s|
  {
    var x :| x in s;
    if s != {x} {
      LatestExists(s - {x});
      var p :| p in s - {x} && forall q :: q in s - {x} ==> q.created_at <= p.created_at;
      if x.created_at > p.created_at {
        assert forall q :: q in s ==> q.created_at <= x.created_at;
      } else {
        assert forall q :: q in s ==> q.created_at <= p.created_at;
      }
    }
  }

  /**
    * The list holds exactly the caller's payments, each once, newest first:
    * every entry is the projection of a payment of that merchant, and every
    * payment of that merchant has an entry.
    */
  lemma ListIsScopedAndOrdered(payments: map<string, Payment>, merchantId: MerchantId, rows: seq<Payment>)
    requires forall k :: k in payments ==> payments[k].id == k
    requires IsListing(payments, merchantId, rows)
    ensures var items := ListResponse(rows);
      && (forall i :: 0 <= i < |items| ==>
            items[i].id in payments && payments[items[i].id].merchant_id == merchantId
            && items[i] == ListItem(payments[items[i].id]))
      && (forall k :: k in payments && payments[k].merchant_id == merchantId ==>
            exists i :: 0 <= i < |items| && items[i].id == k)
      && (forall i, j :: 0 <= i < j < |items| ==> items[i].id != items[j].id)
      && (forall i, j :: 0 <= i < j < |items| ==> items[i].created_at >= items[j].created_at)
  {
    var items := ListResponse(rows);
    forall i | 0 <= i < |items|
      ensures items[i].id in payments && payments[items[i].id].merchant_id == merchantId
      ensures items[i] == ListItem(payments[items[i].id])
    {
      assert rows[i] in Owned(payments, merchantId);
      var k :| k in payments && payments[k].merchant_id == merchantId && payments[k] == rows[i];
    }
    forall k | k in payments && payments[k].merchant_id == merchantId
      ensures exists i :: 0 <= i < |items| && items[i].id == k
    {
      assert payments[k] in Owned(payments, merchantId);
      var i :| 0 <= i < |rows| && rows[i] == payments[k];
      assert items[i].id == k;
    }
    forall i, j | 0 <= i < j < |items| ensures items[i].id != items[j].id {
      assert rows[i] in Owned(payments, merchantId) && rows[j] in Owned(payments, merchantId);
      var ki :| ki in payments && payments[ki].merchant_id == merchantId && payments[ki] == rows[i];
      var kj :| kj in payments && payments[kj].merchant_id == merchantId && payments[kj] == rows[j];
    }
  }

  /**
    * The payment routes answer 404 for an unknown or foreign order or
    * payment, 400 for a rejected method field and 500 when the insert fails.
    */
  lemma PaymentErrorStatuses(orders: map<string, Order>, payments: map<string, Payment>,
                             merchant: Option<MerchantId>, req: PaymentRequest, today: Validation.YearMonth,
                             id: string, cfg: Config, delayDraw: Random.Unit, outcomeDraw: Random.Unit,
                             createdAt: Timestamp, settledAt: Timestamp, merchantId: MerchantId)
    ensures var r := PaymentCreation(orders, payments, merchant, req, today, id, cfg, delayDraw, outcomeDraw, createdAt, settledAt).0;
      r.Err? ==> IsSentStatus(StatusOf(r.error))
                 && (StatusOf(r.error) == 404 <==>
                       req.order_id !in orders || (merchant.Some? && orders[req.order_id].merchant_id != merchant.value))
                 && (StatusOf(r.error) == 500 <==> Admit(orders, merchant, req, today).Ok?)
    ensures var r := ScopedPayment(payments, merchantId, id);
      r.Err? ==> IsSentStatus(StatusOf(r.error)) && StatusOf(r.error) == 404
    ensures var r := PublicPayment(payments, id);
      r.Err? ==> IsSentStatus(StatusOf(r.error)) && StatusOf(r.error) == 404
  {
  }
}
