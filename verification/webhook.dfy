/** The payment provider's webhook: after the signature check, a small
    decision procedure that either acknowledges the delivery without acting
    or marks the payment SUCCESS and its order PAID together and schedules
    one confirmation email. The signature check is abstract: the handler is
    given the event it yields, or nothing when it raised. */
module Webhook {
  import opened Common
  import opened Store
  import opened Payments

  const CompletedEvent := "checkout.session.completed"
  const PaidSession := "paid"

  /** The checkout session an event carries: its id, its payment status if
      present, and the correlation metadata. */
  datatype Session = Session(id: string, paymentStatus: Option<string>, metadata: map<string, Id>)

  datatype Event = Event(eventType: string, session: Session)

  /** The `status` the handler acknowledges with. */
  datatype Ack = Ignored | NotPaid | AlreadyProcessed | MissingEmail | Processed

  /** A scheduled confirmation email; sending it is not part of the model. */
  datatype EmailTask = EmailTask(to: string, orderId: Id, amount: Paise)

  datatype WebhookReply = WebhookReply(result: Result<Ack>, store: Store, emails: seq<EmailTask>)

  /** How far the handler gets before it needs the order's owner: either an
      answer, or the payment and the order to reconcile. */
  datatype Stage = Answer(result: Result<Ack>) | Reconcile(paymentId: Id, orderId: Id)

  predicate HasSession(sessionId: string, p: Payment) {
    p.sessionId == Some(sessionId)
  }

  /** The payment recorded for a checkout session: the lowest id among the
      rows with that session id. */
  function PaymentForSession(s: Store, sessionId: string): (r: Option<Id>)
    ensures r.Some? ==> r.value in s.payments && s.payments[r.value].sessionId == Some(sessionId)
    ensures r.None? ==> forall k :: k in s.payments && k < s.nextId ==> s.payments[k].sessionId != Some(sessionId)
  {
    FirstKey(s.payments, p => HasSession(sessionId, p), 0, s.nextId)
  }

  /** A paid completion whose session's payment is still pending: the
      point at which the handler turns to the metadata's order. */
  predicate PendingCompletion(s: Store, delivery: Option<Event>) {
    && delivery.Some? && delivery.value.eventType == CompletedEvent
    && delivery.value.session.paymentStatus == Some(PaidSession)
    && PaymentForSession(s, delivery.value.session.id).Some?
    && s.payments[PaymentForSession(s, delivery.value.session.id).value].status != SuccessStatus
  }

  /** The checks before the order's owner is consulted, in the handler's
      order: signature, event type, payment status of the session, the
      payment's own status, the metadata's order id, the order. */
  function Locate(s: Store, delivery: Option<Event>): (r: Stage)
    ensures delivery.None? ==> r == Answer(Err(HttpError(BadRequest, "Webhook error")))
    ensures delivery.Some? && delivery.value.eventType != CompletedEvent ==> r == Answer(Ok(Ignored))
    ensures (delivery.Some? && delivery.value.eventType == CompletedEvent
             && delivery.value.session.paymentStatus != Some(PaidSession)) ==> r == Answer(Ok(NotPaid))
    ensures (delivery.Some? && delivery.value.eventType == CompletedEvent
             && delivery.value.session.paymentStatus == Some(PaidSession)
             && (PaymentForSession(s, delivery.value.session.id).None?
                 || s.payments[PaymentForSession(s, delivery.value.session.id).value].status == SuccessStatus))
            ==> r == Answer(Ok(AlreadyProcessed))
    ensures PendingCompletion(s, delivery) && "order_id" !in delivery.value.session.metadata ==>
      r == Answer(Err(HttpError(ServerError, InternalError)))
    ensures (PendingCompletion(s, delivery) && "order_id" in delivery.value.session.metadata
             && delivery.value.session.metadata["order_id"] !in s.orders) ==> r == Answer(Ok(MissingEmail))
    ensures r.Answer? && r.result.Err? ==> r.result.error.code in {BadRequest, ServerError}
    ensures r.Reconcile? <==>
      && PendingCompletion(s, delivery)
      && "order_id" in delivery.value.session.metadata
      && delivery.value.session.metadata["order_id"] in s.orders
    ensures r.Reconcile? ==>
      && r.paymentId == PaymentForSession(s, delivery.value.session.id).value
      && r.orderId == delivery.value.session.metadata["order_id"]
      && r.paymentId in s.payments && r.orderId in s.orders
  {
    if delivery.None? then Answer(Err(HttpError(BadRequest, "Webhook error")))
    else if delivery.value.eventType != CompletedEvent then Answer(Ok(Ignored))
    else if delivery.value.session.paymentStatus != Some(PaidSession) then Answer(Ok(NotPaid))
    else
      match PaymentForSession(s, delivery.value.session.id)
      case None => Answer(Ok(AlreadyProcessed))
      case Some(p) =>
        if s.payments[p].status == SuccessStatus then Answer(Ok(AlreadyProcessed))
        else if "order_id" !in delivery.value.session.metadata then
          Answer(Err(HttpError(ServerError, InternalError)))
        else if delivery.value.session.metadata["order_id"] !in s.orders then Answer(Ok(MissingEmail))
        else Reconcile(p, delivery.value.session.metadata["order_id"])
  }

  /** The order's owner has an email to write to. */
  predicate Reachable(s: Store, orderId: Id)
    requires orderId in s.orders
  {
    s.orders[orderId].userId in s.users && s.users[s.orders[orderId].userId].email != ""
  }

  /** The reconciling write: the payment becomes SUCCESS and the order PAID,
      in one step. */
  function Settle(s: Store, paymentId: Id, orderId: Id): (t: Store)
    requires paymentId in s.payments && orderId in s.orders
    ensures t.payments.Keys == s.payments.Keys && t.orders.Keys == s.orders.Keys
    ensures t.payments[paymentId] == s.payments[paymentId].(status := SuccessStatus)
    ensures t.orders[orderId] == s.orders[orderId].(status := PaidStatus)
    ensures forall k :: k in s.payments && k != paymentId ==> t.payments[k] == s.payments[k]
    ensures forall k :: k in s.orders && k != orderId ==> t.orders[k] == s.orders[k]
    ensures t == s.(payments := t.payments, orders := t.orders)
  {
    s.(payments := s.payments[paymentId := s.payments[paymentId].(status := SuccessStatus)],
       orders := s.orders[orderId := s.orders[orderId].(status := PaidStatus)])
  }

  /** The handler with the owner taken from the order's `userId`: an owner
      without an email, or no owner, is answered "missing_email" without a
      change; otherwise the payment and order are settled and one email to
      the owner, with the order id and the payment's amount, is scheduled. */
  function HandleEvent(s: Store, delivery: Option<Event>): (r: WebhookReply)
    ensures Locate(s, delivery).Answer? ==> r == WebhookReply(Locate(s, delivery).result, s, [])
    ensures r.result == Ok(Processed) <==>
      Locate(s, delivery).Reconcile? && Reachable(s, Locate(s, delivery).orderId)
    ensures Locate(s, delivery).Reconcile? && !Reachable(s, Locate(s, delivery).orderId) ==>
      r == WebhookReply(Ok(MissingEmail), s, [])
    ensures r.result != Ok(Processed) ==> r.store == s && r.emails == []
    ensures r.result == Ok(Processed) ==>
      var p := Locate(s, delivery).paymentId;
      var o := Locate(s, delivery).orderId;
      && r.store == Settle(s, p, o)
      && r.emails == [EmailTask(s.users[s.orders[o].userId].email, o, s.payments[p].amount)]
  {
    match Locate(s, delivery)
    case Answer(result) => WebhookReply(result, s, [])
    case Reconcile(p, o) =>
      if !Reachable(s, o) then WebhookReply(Ok(MissingEmail), s, [])
      else WebhookReply(Ok(Processed), Settle(s, p, o),
                        [EmailTask(s.users[s.orders[o].userId].email, o, s.payments[p].amount)])
  }

  /** The handler as written: it reads the owner through `order.user`, an
      attribute the order model does not define, so every delivery that
      reaches an existing order ends in a 500 with nothing written. */
  function HandleEventAsWritten(s: Store, delivery: Option<Event>): (r: WebhookReply)
    ensures Locate(s, delivery).Answer? ==> r == WebhookReply(Locate(s, delivery).result, s, [])
    ensures Locate(s, delivery).Reconcile? ==> r.result.Err? && r.result.error.code == ServerError
    ensures r.store == s && r.emails == []
  {
    match Locate(s, delivery)
    case Answer(result) => WebhookReply(result, s, [])
    case Reconcile(_, _) =>
      WebhookReply(Err(HttpError(ServerError, InternalError)), s, [])
  }

  /** A delivery whose signature does not verify is refused with 400 and
      changes nothing, whatever it carried. */
  lemma SignatureGate(s: Store)
    ensures HandleEvent(s, None) == WebhookReply(Err(HttpError(BadRequest, "Webhook error")), s, [])
  {
  }

  /** The only writes the handler makes are payment status SUCCESS and order
      status PAID: every other field of every row, and every other table,
      stays as it was. */
  lemma StatusVocabulary(s: Store, delivery: Option<Event>)
    ensures var t := HandleEvent(s, delivery).store;
      && t == s.(payments := t.payments, orders := t.orders)
      && t.payments.Keys == s.payments.Keys && t.orders.Keys == s.orders.Keys
      && (forall k :: k in s.payments ==>
            t.payments[k] == s.payments[k] || t.payments[k] == s.payments[k].(status := SuccessStatus))
      && (forall k :: k in s.orders ==>
            t.orders[k] == s.orders[k] || t.orders[k] == s.orders[k].(status := PaidStatus))
  {
  }

  /** Handling a delivery keeps every invariant of the store: settling
      rewrites two statuses and no key, id or reference. */
  lemma HandleEventKeepsInvariants(s: Store, delivery: Option<Event>)
    ensures s.Valid() ==> HandleEvent(s, delivery).store.Valid()
    ensures s.Linked() ==> HandleEvent(s, delivery).store.Linked()
    ensures s.EmailsUnique() ==> HandleEvent(s, delivery).store.EmailsUnique()
  {
    match Locate(s, delivery)
    case Answer(_) =>
    case Reconcile(p, o) =>
      if Reachable(s, o) {
        SettleKeepsInvariants(s, p, o);
      }
  }

  /** Settling rewrites a payment's and an order's status and nothing they
      refer to, so validity and references are kept. */
  lemma SettleKeepsInvariants(s: Store, paymentId: Id, orderId: Id)
    requires paymentId in s.payments && orderId in s.orders
    ensures s.Valid() ==> Settle(s, paymentId, orderId).Valid()
    ensures s.Linked() ==> Settle(s, paymentId, orderId).Linked()
  {
    var paid := s.payments[paymentId].(status := SuccessStatus);
    var first := s.(payments := s.payments[paymentId := paid]);
    PaymentReplaced(s, paymentId, paid);
    OrderReplaced(first, orderId, s.orders[orderId].(status := PaidStatus));
    assert Settle(s, paymentId, orderId) == first.(orders := first.orders[orderId := s.orders[orderId].(status := PaidStatus)]);
  }

  /** Settling touches no session id, so the same session still finds the
      same payment afterwards. */
  lemma SettleKeepsSessionLookup(s: Store, paymentId: Id, orderId: Id, sessionId: string)
    requires paymentId in s.payments && orderId in s.orders
    ensures PaymentForSession(Settle(s, paymentId, orderId), sessionId) == PaymentForSession(s, sessionId)
  {
    var t := Settle(s, paymentId, orderId);
    FirstKeySameMatches(t.payments, s.payments, p => HasSession(sessionId, p), 0, s.nextId);
  }

  /** Delivering the same event twice settles at most once and schedules at
      most one email: the second delivery changes nothing and sends nothing,
      and after a settlement it is answered "already_processed". */
  lemma ReplayIsHarmless(s: Store, delivery: Option<Event>)
    ensures var first := HandleEvent(s, delivery);
            var second := HandleEvent(first.store, delivery);
            && second.store == first.store
            && second.emails == []
            && |first.emails| + |second.emails| <= 1
    ensures HandleEvent(s, delivery).result == Ok(Processed) ==>
            HandleEvent(HandleEvent(s, delivery).store, delivery).result == Ok(AlreadyProcessed)
  {
    var first := HandleEvent(s, delivery);
    if first.result == Ok(Processed) {
      var p := Locate(s, delivery).paymentId;
      var o := Locate(s, delivery).orderId;
      SettleKeepsSessionLookup(s, p, o, delivery.value.session.id);
      assert first.store.payments[p].status == SuccessStatus;
      assert Locate(first.store, delivery) == Answer(Ok(AlreadyProcessed));
    }
  }

  /** Inserting a payment without a session id under a fresh key leaves
      every session lookup where it was. */
  lemma InsertWithoutSessionKeepsLookup(s: Store, row: Payment, sessionId: string)
    requires row.sessionId.None?
    ensures PaymentForSession(s.(payments := s.payments[s.nextId := row], nextId := s.nextId + 1), sessionId)
            == PaymentForSession(s, sessionId)
  {
    var t := s.(payments := s.payments[s.nextId := row], nextId := s.nextId + 1);
    var matches := p => HasSession(sessionId, p);
    FirstKeyWiden(t.payments, matches, 0, s.nextId);
    FirstKeySameMatches(t.payments, s.payments, matches, 0, s.nextId);
  }

  /** A payment started through the payment endpoint records no checkout
      session id, so no delivery can ever find it: the session lookup after
      the insert is the lookup before it, and never yields the new row. */
  lemma CreatedPaymentNeverReconciled(s: Store, caller: User, orderId: Id,
                                      provider: IntentRequest -> ProviderReply, sessionId: string)
    requires s.Valid()
    ensures PaymentForSession(CreatePayment(s, caller, orderId, provider).store, sessionId)
            == PaymentForSession(s, sessionId)
    ensures PaymentForSession(CreatePayment(s, caller, orderId, provider).store, sessionId) != Some(s.nextId)
  {
    var r := CreatePayment(s, caller, orderId, provider);
    if r.result.Ok? {
      InsertWithoutSessionKeepsLookup(s, r.store.payments[s.nextId], sessionId);
    }
  }

  /** A store with one owner, one order and one pending payment for
      checkout session "cs_1", and the paid completion of that session. */
  const ExampleStore := Store(
    map[0 := User(0, "Asha", "Rao", "asha@example.com", "9000000000", "hash", UserRole, None)],
    map[], map[],
    map[1 := Order(1, 0, 5, "Placed", 50000, 0)],
    map[],
    map[2 := Payment(1, 0, None, Some("cs_1"), 50000, RecordCurrency, PendingStatus, Intent("pi_1", "secret_1"))],
    3)

  const ExampleDelivery := Some(Event(CompletedEvent, Session("cs_1", Some(PaidSession), map["order_id" := 1])))

  /** On that delivery the handler as written answers 500 and settles
      nothing, while the handler reading the owner from the order's user id
      settles the payment and order and schedules the one email. */
  lemma OwnerLookupCounterexample()
    ensures HandleEventAsWritten(ExampleStore, ExampleDelivery).result.Err?
    ensures HandleEventAsWritten(ExampleStore, ExampleDelivery).store == ExampleStore
    ensures HandleEvent(ExampleStore, ExampleDelivery).result == Ok(Processed)
    ensures HandleEvent(ExampleStore, ExampleDelivery).emails == [EmailTask("asha@example.com", 1, 50000)]
  {
    var matches := p => HasSession("cs_1", p);
    assert FirstKey(ExampleStore.payments, matches, 2, 3) == Some(2);
    assert FirstKey(ExampleStore.payments, matches, 0, 3) == Some(2);
    assert Locate(ExampleStore, ExampleDelivery) == Reconcile(2, 1);
  }
}
