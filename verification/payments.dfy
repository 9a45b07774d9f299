/** Starting a payment: the service that asks the payment provider for a
    payment intent, and the endpoint that guards it and records a PENDING
    payment. The provider is a function parameter: what it answers for a
    request is all the model knows about it. */
module Payments {
  import opened Common
  import opened Store

  const ProviderCurrency := "inr"
  const RecordCurrency := "INR"
  const PendingReply := "payment_pending"

  /** What is sent to the provider. Amounts are in paise on both sides, so
      the service's rupee-to-paise scaling is the identity here. */
  datatype IntentRequest = IntentRequest(
    amount: Paise,
    currency: string,
    metadata: map<string, Id>,
    automaticPaymentMethods: bool)

  /** The provider either creates an intent or raises. */
  datatype ProviderReply = Created(intent: Intent) | ProviderFailed

  /** The body the endpoint answers with. */
  datatype PaymentStarted = PaymentStarted(
    paymentIntentId: string,
    clientSecret: string,
    amount: Paise,
    currency: string,
    status: string)

  /** The request for a known order: its total in paise, tagged with the
      order's id as correlation metadata. */
  function RequestFor(o: Order): (q: IntentRequest)
    ensures q.amount == o.totalAmount
    ensures q.currency == ProviderCurrency
    ensures q.metadata.Keys == {"order_id"} && q.metadata["order_id"] == o.id
    ensures q.automaticPaymentMethods
  {
    IntentRequest(o.totalAmount, ProviderCurrency, map["order_id" := o.id], true)
  }

  /** The service's own guards, which come before the provider is called. */
  predicate Chargeable(s: Store, orderId: Id) {
    orderId in s.orders && s.orders[orderId].totalAmount > 0
  }

  /** The service: 404 for an unknown order, 400 unless the total is
      positive, then one provider call, whose failure escapes as a 500. */
  function CreateIntent(s: Store, orderId: Id, provider: IntentRequest -> ProviderReply): (r: Result<Intent>)
    ensures orderId !in s.orders ==> r == Err(HttpError(NotFound, "Order not found"))
    ensures orderId in s.orders && s.orders[orderId].totalAmount <= 0 ==>
      r == Err(HttpError(BadRequest, "Invalid order amount"))
    ensures r.Ok? <==> Chargeable(s, orderId) && provider(RequestFor(s.orders[orderId])).Created?
    ensures Chargeable(s, orderId) && provider(RequestFor(s.orders[orderId])).ProviderFailed? ==>
      r == Err(HttpError(ServerError, InternalError))
    ensures r.Ok? ==> r.value == provider(RequestFor(s.orders[orderId])).intent
    ensures r.Err? ==> r.error.code in {NotFound, BadRequest, ServerError}
  {
    if orderId !in s.orders then Err(HttpError(NotFound, "Order not found"))
    else if s.orders[orderId].totalAmount <= 0 then Err(HttpError(BadRequest, "Invalid order amount"))
    else match provider(RequestFor(s.orders[orderId]))
      case Created(intent) => Ok(intent)
      case ProviderFailed => Err(HttpError(ServerError, InternalError))
  }

  // ---------------------------------------------------------------------
  // The service as written: the total read back as text
  // ---------------------------------------------------------------------

  /** The decimal digits of a natural number. */
  function Digits(n: nat): (t: string)
    ensures |t| > 0
    ensures forall i :: 0 <= i < |t| ==> '0' <= t[i] <= '9'
  {
    if n < 10 then [('0' as int + n) as char]
    else Digits(n / 10) + [('0' as int + n % 10) as char]
  }

  /** Stands in for the text the String `total_amount` column gives back.
      The column really holds the text of the rupee total as a float, such
      as "250.0"; the model writes the paise as digits instead, since all
      the service's first guard looks at is that the text is not empty. */
  function ColumnText(total: Paise): (t: string)
    ensures |t| > 0
    ensures total >= 0 ==> t == Digits(total)
    ensures total < 0 ==> t == ['-'] + Digits(-total)
  {
    if total < 0 then ['-'] + Digits(-total) else Digits(total)
  }

  /** The service as written. The order's total comes back from the String
      column as text: `not total` is false for any non-empty text, and
      comparing text with 0 raises, which the framework answers 500. So
      every known order fails before the provider is called. */
  function CreateIntentAsWritten(s: Store, orderId: Id, provider: IntentRequest -> ProviderReply): (r: Result<Intent>)
    ensures orderId !in s.orders ==> r == Err(HttpError(NotFound, "Order not found"))
    ensures orderId in s.orders ==> r == Err(HttpError(ServerError, InternalError))
  {
    if orderId !in s.orders then Err(HttpError(NotFound, "Order not found"))
    else if ColumnText(s.orders[orderId].totalAmount) == "" then Err(HttpError(BadRequest, "Invalid order amount"))
    else Err(HttpError(ServerError, InternalError))
  }

  /** One order with a positive total, and a provider that creates intents. */
  const ExampleOrders := Empty.(orders := map[1 := Order(1, 0, 5, "Placed", 50000, 0)], nextId := 2)

  function ExampleProvider(q: IntentRequest): ProviderReply {
    Created(Intent("pi_1", "secret_1"))
  }

  /** On an order of 500 rupees the service as written answers 500, while
      the service comparing the total as a number asks the provider and
      returns its intent. */
  lemma TextTotalCounterexample()
    ensures CreateIntentAsWritten(ExampleOrders, 1, ExampleProvider).Err?
    ensures CreateIntentAsWritten(ExampleOrders, 1, ExampleProvider).error.code == ServerError
    ensures CreateIntent(ExampleOrders, 1, ExampleProvider) == Ok(Intent("pi_1", "secret_1"))
  {
  }

  /** The guards are decided before the provider is consulted: when they
      fail, every provider gives the same answer. */
  lemma GuardsPrecedeProvider(s: Store, orderId: Id, p: IntentRequest -> ProviderReply, p': IntentRequest -> ProviderReply)
    requires !Chargeable(s, orderId)
    ensures CreateIntent(s, orderId, p) == CreateIntent(s, orderId, p')
    ensures CreateIntent(s, orderId, p).Err? && CreateIntent(s, orderId, p).error.code in {NotFound, BadRequest}
  {
  }

  /** The endpoint's own guards: the order exists, belongs to the caller
      (admins get no bypass) and is not already paid. */
  predicate MayPay(s: Store, caller: User, orderId: Id) {
    orderId in s.orders && s.orders[orderId].userId == caller.id && s.orders[orderId].status != PaidStatus
  }

  /** The row recorded for a created intent: PENDING, for the order's total,
      with the intent id and no checkout-session id. */
  function PendingPayment(o: Order, caller: User, intent: Intent): (p: Payment)
    ensures p.orderId == o.id && p.userId == caller.id && p.amount == o.totalAmount
    ensures p.status == PendingStatus && p.currency == RecordCurrency
    ensures p.intentId == Some(intent.id) && p.sessionId.None? && p.snapshot == intent
  {
    Payment(o.id, caller.id, Some(intent.id), None, o.totalAmount, RecordCurrency, PendingStatus, intent)
  }

  /** Starts a payment for one of the caller's unpaid orders. Every refusal,
      including a provider failure, leaves the store as it was; otherwise
      exactly one payment row is added and nothing else changes. */
  function CreatePayment(s: Store, caller: User, orderId: Id, provider: IntentRequest -> ProviderReply): (r: Reply<PaymentStarted>)
    ensures orderId !in s.orders ==> r == Fail(s, NotFound, "Order not found")
    ensures orderId in s.orders && s.orders[orderId].userId != caller.id ==> r == Fail(s, Forbidden, "Not allowed")
    ensures orderId in s.orders && s.orders[orderId].userId == caller.id && s.orders[orderId].status == PaidStatus ==>
      r == Fail(s, BadRequest, "Order already paid")
    ensures r.result.Ok? <==>
      MayPay(s, caller, orderId) && Chargeable(s, orderId) && provider(RequestFor(s.orders[orderId])).Created?
    ensures r.result.Err? ==> r.store == s
    ensures r.result.Ok? ==>
      && r.store == s.(payments := r.store.payments, nextId := s.nextId + 1)
      && r.store.payments.Keys == s.payments.Keys + {s.nextId}
      && (forall k :: k in s.payments && k != s.nextId ==> r.store.payments[k] == s.payments[k])
      && r.store.payments[s.nextId] ==
           PendingPayment(s.orders[orderId], caller, provider(RequestFor(s.orders[orderId])).intent)
    ensures r.result.Ok? ==>
      && r.result.value.amount == s.orders[orderId].totalAmount
      && r.result.value.currency == RecordCurrency
      && r.result.value.status == PendingReply
      && Some(r.result.value.paymentIntentId) == r.store.payments[s.nextId].intentId
      && r.result.value.clientSecret == r.store.payments[s.nextId].snapshot.clientSecret
  {
    if orderId !in s.orders then Fail(s, NotFound, "Order not found")
    else if s.orders[orderId].userId != caller.id then Fail(s, Forbidden, "Not allowed")
    else if s.orders[orderId].status == PaidStatus then Fail(s, BadRequest, "Order already paid")
    else match CreateIntent(s, orderId, provider)
      case Err(e) => Reply(Err(e), s)
      case Ok(intent) =>
        Reply(Ok(PaymentStarted(intent.id, intent.clientSecret, s.orders[orderId].totalAmount, RecordCurrency, PendingReply)),
              s.(payments := s.payments[s.nextId := PendingPayment(s.orders[orderId], caller, intent)],
                 nextId := s.nextId + 1))
  }

  /** The endpoint as written: the row it inserts leaves the NOT NULL
      `stripe_session_id` unset, so whenever the provider has created an
      intent the commit fails and the request ends in 500 with nothing
      recorded. Every earlier refusal is the same as in `CreatePayment`. */
  function CreatePaymentAsWritten(s: Store, caller: User, orderId: Id, provider: IntentRequest -> ProviderReply): (r: Reply<PaymentStarted>)
    ensures r.result.Err? && r.store == s
    ensures CreatePayment(s, caller, orderId, provider).result.Err? ==> r == CreatePayment(s, caller, orderId, provider)
    ensures MayPay(s, caller, orderId) && Chargeable(s, orderId) && provider(RequestFor(s.orders[orderId])).Created? ==>
      r == Fail(s, ServerError, InternalError)
  {
    var corrected := CreatePayment(s, caller, orderId, provider);
    if corrected.result.Ok? then Fail(s, ServerError, InternalError) else corrected
  }

  /** The owner of `ExampleOrders`' order. */
  const ExampleCaller := User(0, "Asha", "Rao", "asha@example.com", "", "hash", UserRole, None)

  /** For the owner of an unpaid order of 500 rupees, the endpoint as
      written answers 500 and records nothing, while the endpoint that
      records the payment without a session id succeeds. */
  lemma SessionIdCounterexample()
    ensures CreatePaymentAsWritten(ExampleOrders, ExampleCaller, 1, ExampleProvider)
            == Fail(ExampleOrders, ServerError, InternalError)
    ensures CreatePayment(ExampleOrders, ExampleCaller, 1, ExampleProvider).result.Ok?
    ensures CreatePayment(ExampleOrders, ExampleCaller, 1, ExampleProvider).result.value.amount == 50000
  {
  }

  /** On a valid store a new payment row takes an id no payment had and
      refers to an existing order. */
  lemma CreatedPaymentFresh(s: Store, caller: User, orderId: Id, provider: IntentRequest -> ProviderReply)
    requires s.Valid()
    requires CreatePayment(s, caller, orderId, provider).result.Ok?
    ensures s.nextId !in s.payments
    ensures |CreatePayment(s, caller, orderId, provider).store.payments| == |s.payments| + 1
    ensures CreatePayment(s, caller, orderId, provider).store.payments[s.nextId].orderId in s.orders
  {
  }

  /** Starting a payment keeps a valid store valid. */
  lemma CreatedPaymentKeepsValid(s: Store, caller: User, orderId: Id, provider: IntentRequest -> ProviderReply)
    requires s.Valid()
    ensures CreatePayment(s, caller, orderId, provider).store.Valid()
  {
    if CreatePayment(s, caller, orderId, provider).result.Ok? {
      var row := CreatePayment(s, caller, orderId, provider).store.payments[s.nextId];
      assert row.orderId == orderId;
      PaymentAdded(s, row);
    }
  }

  /** Starting a payment never touches an order, an item or anything but
      the payment table. */
  lemma CreatePaymentKeepsOrders(s: Store, caller: User, orderId: Id, provider: IntentRequest -> ProviderReply)
    ensures CreatePayment(s, caller, orderId, provider).store.orders == s.orders
    ensures CreatePayment(s, caller, orderId, provider).store.orderItems == s.orderItems
    ensures CreatePayment(s, caller, orderId, provider).store.users == s.users
    ensures CreatePayment(s, caller, orderId, provider).store.menus == s.menus
  {
  }

  /** On a valid store, a payment started by a stored caller refers to a
      stored order and a stored user, so references stay resolved. */
  lemma CreatePaymentKeepsLinked(s: Store, caller: User, orderId: Id, provider: IntentRequest -> ProviderReply)
    requires s.Valid() && s.Linked() && caller.id in s.users
    ensures CreatePayment(s, caller, orderId, provider).store.Linked()
  {
    if CreatePayment(s, caller, orderId, provider).result.Ok? {
      var row := CreatePayment(s, caller, orderId, provider).store.payments[s.nextId];
      assert row.orderId == orderId;
      PaymentAdded(s, row);
    }
  }
}
