/** The database as an immutable record of finite maps, one per table, with
    the record shapes of the backend's ORM models. Money is an integer
    amount of paise. */
module Store {
  import opened Common

  type Paise = int

  /** A row of `users`. `address` is the one nullable column. */
  datatype User = User(
    id: Id,
    firstName: string,
    lastName: string,
    email: string,
    phone: string,
    password: string,
    role: string,
    address: Option<string>)

  /** A row of `restaurants`. */
  datatype Restaurant = Restaurant(
    id: Id,
    name: string,
    description: Option<string>,
    address: string,
    isOpen: bool)

  /** A row of `menus`: one dish of one restaurant. */
  datatype Menu = Menu(
    id: Id,
    restaurantId: Id,
    name: string,
    price: Paise,
    isAvailable: bool)

  /** A row of `orders`. The status is free text: "Placed" on creation,
      "PAID" after reconciliation, anything an admin writes otherwise. */
  datatype Order = Order(
    id: Id,
    userId: Id,
    restaurantId: Id,
    status: string,
    totalAmount: Paise,
    createdAt: int)

  /** The status words the payment flow writes: an order becomes PAID, a
      payment starts PENDING and becomes SUCCESS. */
  const PaidStatus := "PAID"
  const PendingStatus := "PENDING"
  const SuccessStatus := "SUCCESS"

  /** A row of `order_items`: one line of an order with its frozen price. */
  datatype OrderItem = OrderItem(
    orderId: Id,
    menuId: Id,
    quantity: int,
    priceAtOrder: Paise)

  /** What the payment provider answered when the intent was created; kept
      on the payment as an opaque snapshot. */
  datatype Intent = Intent(id: string, clientSecret: string)

  /** A row of `payments`. The provider's intent id and checkout-session id
      are separate optional columns. */
  datatype Payment = Payment(
    orderId: Id,
    userId: Id,
    intentId: Option<string>,
    sessionId: Option<string>,
    amount: Paise,
    currency: string,
    status: string,
    snapshot: Intent)

  datatype Store = Store(
    users: map<Id, User>,
    restaurants: map<Id, Restaurant>,
    menus: map<Id, Menu>,
    orders: map<Id, Order>,
    orderItems: map<Id, OrderItem>,
    payments: map<Id, Payment>,
    nextId: Id)
  {
    /** Every row's key was handed out before `nextId`, so keys taken
        from `nextId` onwards are fresh in every table. */
    ghost predicate KeysBelow() {
      && (forall k :: k in users ==> k < nextId)
      && (forall k :: k in restaurants ==> k < nextId)
      && (forall k :: k in menus ==> k < nextId)
      && (forall k :: k in orders ==> k < nextId)
      && (forall k :: k in orderItems ==> k < nextId)
      && (forall k :: k in payments ==> k < nextId)
    }

    /** Every order an item or payment refers to was handed out before
        `nextId`, so nothing refers to a fresh id yet. */
    ghost predicate RefsBelow() {
      && (forall k :: k in orderItems ==> orderItems[k].orderId < nextId)
      && (forall k :: k in payments ==> payments[k].orderId < nextId)
    }

    /** A row that carries its own id is stored under it. */
    ghost predicate RowsKeyed() {
      && (forall k :: k in users ==> users[k].id == k)
      && (forall k :: k in restaurants ==> restaurants[k].id == k)
      && (forall k :: k in menus ==> menus[k].id == k)
      && (forall k :: k in orders ==> orders[k].id == k)
    }

    ghost predicate Valid() {
      KeysBelow() && RefsBelow() && RowsKeyed()
    }

    /** Every reference between rows resolves: the integrity the database's
        foreign keys enforce. */
    ghost predicate Linked() {
      && (forall k :: k in orders ==> orders[k].userId in users && orders[k].restaurantId in restaurants)
      && (forall k :: k in menus ==> menus[k].restaurantId in restaurants)
      && (forall k :: k in orderItems ==> orderItems[k].orderId in orders && orderItems[k].menuId in menus)
      && (forall k :: k in payments ==> payments[k].orderId in orders && payments[k].userId in users)
    }

    /** No two users share an email: the unique index on `users.email`. */
    ghost predicate EmailsUnique() {
      forall j, k :: j in users && k in users && users[j].email == users[k].email ==> j == k
    }
  }

  /** Some order or payment refers to the user, so the foreign keys on
      `orders.user_id` and `payments.user_id` refuse to let it go. */
  predicate UserReferenced(s: Store, id: Id) {
    || (exists k :: k in s.orders && s.orders[k].userId == id)
    || (exists k :: k in s.payments && s.payments[k].userId == id)
  }

  /** Some order item refers to the menu (`order_items.menu_id`). */
  predicate MenuReferenced(s: Store, id: Id) {
    exists k :: k in s.orderItems && s.orderItems[k].menuId == id
  }

  /** Some order refers to the restaurant (`orders.restaurant_id`), or some
      menu does. The mapper clears a deleted restaurant's menus' key rather
      than deleting them, and `menus.restaurant_id` refuses the null. */
  predicate RestaurantReferenced(s: Store, id: Id) {
    || (exists k :: k in s.orders && s.orders[k].restaurantId == id)
    || (exists k :: k in s.menus && s.menus[k].restaurantId == id)
  }

  // ---------------------------------------------------------------------
  // How each kind of single-row write affects the invariants
  // ---------------------------------------------------------------------

  lemma UserAdded(s: Store, u: User)
    requires u.id == s.nextId
    ensures s.Valid() ==> s.(users := s.users[u.id := u], nextId := s.nextId + 1).Valid()
    ensures s.Linked() ==> s.(users := s.users[u.id := u], nextId := s.nextId + 1).Linked()
    ensures s.Valid() && s.EmailsUnique() && (forall k :: k in s.users ==> s.users[k].email != u.email) ==>
      s.(users := s.users[u.id := u], nextId := s.nextId + 1).EmailsUnique()
  {
  }

  lemma UserReplaced(s: Store, id: Id, u: User)
    requires id in s.users
    ensures s.Valid() && u.id == id ==> s.(users := s.users[id := u]).Valid()
    ensures s.Linked() ==> s.(users := s.users[id := u]).Linked()
    ensures s.EmailsUnique() && u.email == s.users[id].email ==> s.(users := s.users[id := u]).EmailsUnique()
  {
  }

  lemma UserRemoved(s: Store, id: Id)
    ensures s.Valid() ==> s.(users := s.users - {id}).Valid()
    ensures s.Linked() && !UserReferenced(s, id) ==> s.(users := s.users - {id}).Linked()
    ensures s.EmailsUnique() ==> s.(users := s.users - {id}).EmailsUnique()
  {
  }

  lemma RestaurantReplaced(s: Store, id: Id, r: Restaurant)
    requires id in s.restaurants
    ensures s.Valid() && r.id == id ==> s.(restaurants := s.restaurants[id := r]).Valid()
    ensures s.Linked() ==> s.(restaurants := s.restaurants[id := r]).Linked()
  {
  }

  lemma RestaurantRemoved(s: Store, id: Id)
    ensures s.Valid() ==> s.(restaurants := s.restaurants - {id}).Valid()
    ensures s.Linked() && !RestaurantReferenced(s, id) ==> s.(restaurants := s.restaurants - {id}).Linked()
  {
  }

  lemma MenuReplaced(s: Store, id: Id, m: Menu)
    requires id in s.menus
    ensures s.Valid() && m.id == id ==> s.(menus := s.menus[id := m]).Valid()
    ensures s.Linked() && m.restaurantId in s.restaurants ==> s.(menus := s.menus[id := m]).Linked()
  {
  }

  lemma MenuRemoved(s: Store, id: Id)
    ensures s.Valid() ==> s.(menus := s.menus - {id}).Valid()
    ensures s.Linked() && !MenuReferenced(s, id) ==> s.(menus := s.menus - {id}).Linked()
  {
  }

  lemma OrderReplaced(s: Store, id: Id, o: Order)
    requires id in s.orders
    ensures s.Valid() && o.id == id ==> s.(orders := s.orders[id := o]).Valid()
    ensures s.Linked() && o.userId in s.users && o.restaurantId in s.restaurants ==>
      s.(orders := s.orders[id := o]).Linked()
  {
  }

  lemma OrderAdded(s: Store, o: Order, items: map<Id, OrderItem>, next: Id)
    requires s.Linked() && o.userId in s.users && o.restaurantId in s.restaurants
    requires forall k :: k in items ==> items[k].orderId == s.nextId && items[k].menuId in s.menus
    ensures s.(orders := s.orders[s.nextId := o], orderItems := s.orderItems + items, nextId := next).Linked()
  {
  }

  lemma PaymentAdded(s: Store, p: Payment)
    ensures s.Valid() && p.orderId < s.nextId ==>
      s.(payments := s.payments[s.nextId := p], nextId := s.nextId + 1).Valid()
    ensures s.Linked() && p.orderId in s.orders && p.userId in s.users ==>
      s.(payments := s.payments[s.nextId := p], nextId := s.nextId + 1).Linked()
  {
  }

  lemma PaymentReplaced(s: Store, id: Id, p: Payment)
    requires id in s.payments
    ensures s.Valid() && p.orderId < s.nextId ==> s.(payments := s.payments[id := p]).Valid()
    ensures s.Linked() && p.orderId in s.orders && p.userId in s.users ==> s.(payments := s.payments[id := p]).Linked()
  {
  }

  /** The detail of the 500 the framework answers when a commit fails. */
  const InternalError := "Internal Server Error"

  /** What an endpoint that may write produces: its answer and the store
      after it. Every error path hands back the store it was given, which is
      the rollback of the request's transaction. */
  datatype Reply<+T> = Reply(result: Result<T>, store: Store)

  function Fail<T>(s: Store, code: int, detail: string): (r: Reply<T>)
    ensures r.result.Err? && r.result.error.code == code && r.store == s
  {
    Reply(Err(HttpError(code, detail)), s)
  }

  /** The empty database. */
  const Empty := Store(map[], map[], map[], map[], map[], map[], 0)
}
