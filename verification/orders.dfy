/** The order endpoints: placing an order with its lines in one step,
    listing and reading orders, and the admin status update. */
module Orders {
  import opened Common
  import opened Store

  /** One requested line. The quantity is any integer: the request schema
      does not require it to be positive. */
  datatype OrderLine = OrderLine(menuId: Id, quantity: int)

  datatype OrderCreate = OrderCreate(restaurantId: Id, items: seq<OrderLine>)

  const PlacedStatus := "Placed"
  const InvalidItems := "Invalid or unavailable menu items"
  const OrderFailed := "Order failed"

  /** The quantity fits the 32-bit `Integer` column of `order_items`. */
  predicate FitsInteger(q: int) {
    -0x8000_0000 <= q < 0x8000_0000
  }

  /** Every line's quantity can be stored. */
  predicate QuantitiesFit(lines: seq<OrderLine>) {
    forall i :: 0 <= i < |lines| ==> FitsInteger(lines[i].quantity)
  }

  /** The distinct requested menu ids, `set(menu_ids)`. */
  function RequestedIds(lines: seq<OrderLine>): set<Id> {
    set i | 0 <= i < |lines| :: lines[i].menuId
  }

  /** The menu can be ordered from the restaurant right now. */
  predicate Orderable(s: Store, restaurantId: Id, menuId: Id) {
    menuId in s.menus && s.menus[menuId].restaurantId == restaurantId && s.menus[menuId].isAvailable
  }

  /** The ids of the menus the placement query returns: requested, of that
      restaurant, and available. */
  function MatchingMenus(s: Store, restaurantId: Id, ids: set<Id>): (r: set<Id>)
    ensures r <= ids
    ensures forall k :: k in r <==> k in ids && Orderable(s, restaurantId, k)
  {
    set k | k in ids && Orderable(s, restaurantId, k)
  }

  /** Every line names an orderable menu of the restaurant. */
  predicate AllOrderable(s: Store, restaurantId: Id, lines: seq<OrderLine>) {
    forall i :: 0 <= i < |lines| ==> Orderable(s, restaurantId, lines[i].menuId)
  }

  lemma SubsetOfSameSize<T>(a: set<T>, b: set<T>)
    requires a <= b && |a| == |b|
    ensures a == b
  {
    var rest := b - a;
    assert b == a + rest;
    assert a !! rest;
    assert |rest| == 0;
  }

  /** The size comparison the handler performs is exactly membership: the
      query finds as many menus as there are distinct ids if and only if
      every line names an orderable menu. Duplicate lines are not refused. */
  lemma CountCheckMeansAllOrderable(s: Store, restaurantId: Id, lines: seq<OrderLine>)
    ensures |MatchingMenus(s, restaurantId, RequestedIds(lines))| == |RequestedIds(lines)|
            <==> AllOrderable(s, restaurantId, lines)
  {
    var ids := RequestedIds(lines);
    var found := MatchingMenus(s, restaurantId, ids);
    if |found| == |ids| {
      SubsetOfSameSize(found, ids);
      forall i | 0 <= i < |lines|
        ensures Orderable(s, restaurantId, lines[i].menuId)
      {
        assert lines[i].menuId in ids;
      }
    }
    if AllOrderable(s, restaurantId, lines) {
      forall k | k in ids
        ensures k in found
      {
        var i :| 0 <= i < |lines| && lines[i].menuId == k;
      }
      assert found == ids;
    }
  }

  /** One item per line, in line order, each with the menu's current price
      frozen into `priceAtOrder`. */
  function ItemsFor(lines: seq<OrderLine>, menus: map<Id, Menu>, orderId: Id): (items: seq<OrderItem>)
    requires forall i :: 0 <= i < |lines| ==> lines[i].menuId in menus
    ensures |items| == |lines|
    ensures forall i :: 0 <= i < |lines| ==>
      items[i] == OrderItem(orderId, lines[i].menuId, lines[i].quantity, menus[lines[i].menuId].price)
  {
    seq(|lines|, i requires 0 <= i < |lines| =>
      OrderItem(orderId, lines[i].menuId, lines[i].quantity, menus[lines[i].menuId].price))
  }

  /** The server-side total: the sum over the lines of price times quantity. */
  function LinesTotal(lines: seq<OrderLine>, menus: map<Id, Menu>): int
    requires forall i :: 0 <= i < |lines| ==> lines[i].menuId in menus
  {
    if |lines| == 0 then 0
    else menus[lines[0].menuId].price * lines[0].quantity + LinesTotal(lines[1..], menus)
  }

  /** The sum over items of quantity times frozen price. */
  function ItemsTotal(items: seq<OrderItem>): int {
    if |items| == 0 then 0
    else items[0].quantity * items[0].priceAtOrder + ItemsTotal(items[1..])
  }

  /** The total charged equals the total of the items created for it. */
  lemma {:induction false} TotalMatchesItems(lines: seq<OrderLine>, menus: map<Id, Menu>, orderId: Id)
    requires forall i :: 0 <= i < |lines| ==> lines[i].menuId in menus
    ensures ItemsTotal(ItemsFor(lines, menus, orderId)) == LinesTotal(lines, menus)
  {
    if |lines| > 0 {
      var items := ItemsFor(lines, menus, orderId);
      assert items[1..] == ItemsFor(lines[1..], menus, orderId);
      TotalMatchesItems(lines[1..], menus, orderId);
    }
  }

  /** The items stored under consecutive fresh ids starting at `first`. */
  function Numbered(first: Id, items: seq<OrderItem>): (m: map<Id, OrderItem>)
    ensures forall k :: k in m <==> first <= k < first + |items|
    ensures forall k :: k in m ==> m[k] == items[k - first]
    decreases |items|
  {
    if |items| == 0 then map[]
    else Numbered(first + 1, items[1..])[first := items[0]]
  }

  lemma {:induction false} NumberedSize(first: Id, items: seq<OrderItem>)
    ensures |Numbered(first, items)| == |items|
    decreases |items|
  {
    if |items| > 0 {
      NumberedSize(first + 1, items[1..]);
      assert first !in Numbered(first + 1, items[1..]);
    }
  }

  /** The order a successful placement creates, under the next id. */
  function NewOrder(s: Store, caller: User, payload: OrderCreate, now: int): Order
    requires AllOrderable(s, payload.restaurantId, payload.items)
  {
    Order(s.nextId, caller.id, payload.restaurantId, PlacedStatus, LinesTotal(payload.items, s.menus), now)
  }

  /** Its items, under the ids that follow the order's. */
  function NewItems(s: Store, payload: OrderCreate): (m: map<Id, OrderItem>)
    requires AllOrderable(s, payload.restaurantId, payload.items)
    ensures |m| == |payload.items|
  {
    var items := ItemsFor(payload.items, s.menus, s.nextId);
    NumberedSize(s.nextId + 1, items);
    Numbered(s.nextId + 1, items)
  }

  /** The store after a successful placement: the order and its items are
      written together. */
  function Commit(s: Store, caller: User, payload: OrderCreate, now: int): Reply<Order>
    requires AllOrderable(s, payload.restaurantId, payload.items)
  {
    Reply(Ok(NewOrder(s, caller, payload, now)),
          s.(orders := s.orders[s.nextId := NewOrder(s, caller, payload, now)],
             orderItems := s.orderItems + NewItems(s, payload),
             nextId := s.nextId + 1 + |payload.items|))
  }

  /** Places an order: 404 for an unknown restaurant, 400 unless every line
      names an available menu of that restaurant, 500 when a quantity does
      not fit its column and the commit fails; otherwise one order (status
      "Placed", the caller as owner, the server-side total) and its items
      are added together. */
  function PlaceOrder(s: Store, caller: User, payload: OrderCreate, now: int): (r: Reply<Order>)
    ensures payload.restaurantId !in s.restaurants ==> r == Fail(s, NotFound, "Restaurant not found")
    ensures payload.restaurantId in s.restaurants && !AllOrderable(s, payload.restaurantId, payload.items) ==>
      r == Fail(s, BadRequest, InvalidItems)
    ensures (payload.restaurantId in s.restaurants && AllOrderable(s, payload.restaurantId, payload.items)
             && !QuantitiesFit(payload.items)) ==> r == Fail(s, ServerError, OrderFailed)
    ensures r.result.Ok? <==>
      payload.restaurantId in s.restaurants && AllOrderable(s, payload.restaurantId, payload.items)
      && QuantitiesFit(payload.items)
    ensures r.result.Ok? ==>
      r.result.value == Order(s.nextId, caller.id, payload.restaurantId, PlacedStatus, LinesTotal(payload.items, s.menus), now)
    ensures r.result.Ok? ==> r == Commit(s, caller, payload, now)
  {
    if payload.restaurantId !in s.restaurants then Fail(s, NotFound, "Restaurant not found")
    else
      var found := MatchingMenus(s, payload.restaurantId, RequestedIds(payload.items));
      CountCheckMeansAllOrderable(s, payload.restaurantId, payload.items);
      if |found| != |RequestedIds(payload.items)| then Fail(s, BadRequest, InvalidItems)
      else if !QuantitiesFit(payload.items) then Fail(s, ServerError, OrderFailed)
      else Commit(s, caller, payload, now)
  }

  /** The items of `items` that belong to the order. */
  function OfOrder(items: map<Id, OrderItem>, orderId: Id): (r: map<Id, OrderItem>)
    ensures forall k :: k in r <==> k in items && items[k].orderId == orderId
    ensures forall k :: k in r ==> r[k] == items[k]
  {
    map k | k in items && items[k].orderId == orderId :: items[k]
  }

  /** The items belonging to an order, as the order's `items` relationship
      loads them. */
  function ItemsOfOrder(s: Store, orderId: Id): map<Id, OrderItem> {
    OfOrder(s.orderItems, orderId)
  }

  lemma OfOrderOfUnion(before: map<Id, OrderItem>, added: map<Id, OrderItem>, orderId: Id)
    requires before.Keys !! added.Keys
    requires forall k :: k in before ==> before[k].orderId != orderId
    requires forall k :: k in added ==> added[k].orderId == orderId
    ensures OfOrder(before + added, orderId) == added
  {
    var after := before + added;
    forall k | k in before
      ensures k !in OfOrder(after, orderId)
    {
      assert after[k] == before[k];
    }
  }

  /** Adding the items of a new order `orderId` to items that all sit below
      it and belong to older orders: the count grows by the number added,
      nothing old changes, and the new order owns exactly the added ones. */
  lemma AddItemsOfNewOrder(before: map<Id, OrderItem>, orderId: Id, added: map<Id, OrderItem>)
    requires forall k :: k in before ==> k < orderId && before[k].orderId < orderId
    requires forall k :: k in added ==> orderId < k && added[k].orderId == orderId
    ensures |before + added| == |before| + |added|
    ensures forall k :: k in before ==> k in before + added && (before + added)[k] == before[k]
    ensures OfOrder(before + added, orderId) == added
  {
    assert before.Keys !! added.Keys;
    OfOrderOfUnion(before, added, orderId);
    assert (before + added).Keys == before.Keys + added.Keys;
  }

  /** The items a placement adds sit above the new order's id and belong
      to it. */
  lemma NewItemsFresh(s: Store, payload: OrderCreate)
    requires AllOrderable(s, payload.restaurantId, payload.items)
    ensures forall k :: k in NewItems(s, payload) ==> s.nextId < k && NewItems(s, payload)[k].orderId == s.nextId
  {
    var items := ItemsFor(payload.items, s.menus, s.nextId);
    var m := Numbered(s.nextId + 1, items);
    forall k | k in m
      ensures s.nextId < k && m[k].orderId == s.nextId
    {
      assert m[k] == items[k - (s.nextId + 1)];
    }
  }

  /** Every item a placement adds names a stored menu. */
  lemma NewItemsMenus(s: Store, payload: OrderCreate)
    requires AllOrderable(s, payload.restaurantId, payload.items)
    ensures forall k :: k in NewItems(s, payload) ==> NewItems(s, payload)[k].menuId in s.menus
  {
    var items := ItemsFor(payload.items, s.menus, s.nextId);
    var m := Numbered(s.nextId + 1, items);
    forall k | k in m
      ensures m[k].menuId in s.menus
    {
      var i := k - (s.nextId + 1);
      assert m[k] == items[i];
      assert Orderable(s, payload.restaurantId, payload.items[i].menuId);
    }
  }

  /** A placed order takes an id no order had, and the order count grows
      by one. */
  lemma PlacedOrderFresh(s: Store, caller: User, payload: OrderCreate, now: int)
    requires s.Valid()
    requires AllOrderable(s, payload.restaurantId, payload.items)
    ensures Commit(s, caller, payload, now).result.value.id !in s.orders
    ensures |Commit(s, caller, payload, now).store.orders| == |s.orders| + 1
  {
  }

  /** Placement keeps a valid store valid. */
  lemma PlacedKeepsValid(s: Store, caller: User, payload: OrderCreate, now: int)
    requires s.Valid()
    requires AllOrderable(s, payload.restaurantId, payload.items)
    ensures Commit(s, caller, payload, now).store.Valid()
  {
    NewItemsFresh(s, payload);
    PlacedKeysBelow(s, caller, payload, now);
    PlacedRefsBelow(s, caller, payload, now);
  }

  lemma PlacedKeysBelow(s: Store, caller: User, payload: OrderCreate, now: int)
    requires s.KeysBelow()
    requires AllOrderable(s, payload.restaurantId, payload.items)
    ensures Commit(s, caller, payload, now).store.KeysBelow()
  {
    NewItemsFresh(s, payload);
  }

  lemma PlacedRefsBelow(s: Store, caller: User, payload: OrderCreate, now: int)
    requires s.RefsBelow()
    requires AllOrderable(s, payload.restaurantId, payload.items)
    ensures Commit(s, caller, payload, now).store.RefsBelow()
  {
    NewItemsFresh(s, payload);
  }

  /** On a valid store a placement adds one item per line under fresh ids:
      duplicate lines stay separate items. */
  lemma PlacedItemCount(s: Store, caller: User, payload: OrderCreate, now: int)
    requires s.Valid()
    requires AllOrderable(s, payload.restaurantId, payload.items)
    ensures |Commit(s, caller, payload, now).store.orderItems| == |s.orderItems| + |payload.items|
  {
    NewItemsFresh(s, payload);
    AddItemsOfNewOrder(s.orderItems, s.nextId, NewItems(s, payload));
  }

  /** A placement leaves every stored item as it was. */
  lemma PlacedItemsKeepExisting(s: Store, caller: User, payload: OrderCreate, now: int)
    requires s.Valid()
    requires AllOrderable(s, payload.restaurantId, payload.items)
    ensures forall k :: k in s.orderItems ==>
      k in Commit(s, caller, payload, now).store.orderItems
      && Commit(s, caller, payload, now).store.orderItems[k] == s.orderItems[k]
  {
    NewItemsFresh(s, payload);
    AddItemsOfNewOrder(s.orderItems, s.nextId, NewItems(s, payload));
  }

  /** On a valid store the new order owns exactly the items placed with
      it, under the ids that follow its own. */
  lemma PlacedOrderItemIds(s: Store, caller: User, payload: OrderCreate, now: int)
    requires s.Valid()
    requires AllOrderable(s, payload.restaurantId, payload.items)
    ensures forall k :: k in ItemsOfOrder(Commit(s, caller, payload, now).store, s.nextId) <==>
      s.nextId < k <= s.nextId + |payload.items|
  {
    NewItemsFresh(s, payload);
    AddItemsOfNewOrder(s.orderItems, s.nextId, NewItems(s, payload));
  }

  /** The items a placement adds, one per line in line order, each with
      the line's menu and quantity and the menu's current price. */
  lemma NewItemsValues(s: Store, payload: OrderCreate)
    requires AllOrderable(s, payload.restaurantId, payload.items)
    ensures forall i :: 0 <= i < |payload.items| ==>
      s.nextId + 1 + i in NewItems(s, payload) &&
      NewItems(s, payload)[s.nextId + 1 + i] ==
        OrderItem(s.nextId, payload.items[i].menuId, payload.items[i].quantity, s.menus[payload.items[i].menuId].price)
  {
    var items := ItemsFor(payload.items, s.menus, s.nextId);
    var added := NewItems(s, payload);
    forall i | 0 <= i < |payload.items|
      ensures s.nextId + 1 + i in added && added[s.nextId + 1 + i] == items[i]
    {
      assert added[s.nextId + 1 + i] == items[(s.nextId + 1 + i) - (s.nextId + 1)];
    }
  }

  /** Those items follow the lines in order, each carrying the line's menu
      and quantity and the menu's price at placement. */
  lemma PlacedOrderItemValues(s: Store, caller: User, payload: OrderCreate, now: int)
    requires s.Valid()
    requires AllOrderable(s, payload.restaurantId, payload.items)
    ensures forall i :: 0 <= i < |payload.items| ==>
      s.nextId + 1 + i in ItemsOfOrder(Commit(s, caller, payload, now).store, s.nextId) &&
      ItemsOfOrder(Commit(s, caller, payload, now).store, s.nextId)[s.nextId + 1 + i] ==
        OrderItem(s.nextId, payload.items[i].menuId, payload.items[i].quantity, s.menus[payload.items[i].menuId].price)
  {
    NewItemsFresh(s, payload);
    AddItemsOfNewOrder(s.orderItems, s.nextId, NewItems(s, payload));
    NewItemsValues(s, payload);
  }

  /** The placed order's total is the sum of its items' quantity times
      frozen price. */
  lemma PlacedTotalIsItemsTotal(s: Store, caller: User, payload: OrderCreate, now: int)
    requires AllOrderable(s, payload.restaurantId, payload.items)
    ensures Commit(s, caller, payload, now).result.value.totalAmount
            == ItemsTotal(ItemsFor(payload.items, s.menus, s.nextId))
  {
    TotalMatchesItems(payload.items, s.menus, s.nextId);
  }

  /** An order with no lines is accepted for any existing restaurant: it
      costs nothing and has no items. */
  lemma EmptyOrderPlaced(s: Store, caller: User, restaurantId: Id, now: int)
    requires restaurantId in s.restaurants
    ensures PlaceOrder(s, caller, OrderCreate(restaurantId, []), now).result.Ok?
    ensures PlaceOrder(s, caller, OrderCreate(restaurantId, []), now).result.value.totalAmount == 0
    ensures PlaceOrder(s, caller, OrderCreate(restaurantId, []), now).store.orderItems == s.orderItems
  {
    var payload := OrderCreate(restaurantId, []);
    assert NewItems(s, payload) == map[];
    assert s.orderItems + map[] == s.orderItems;
  }

  /** Repeating a line is not refused, and both copies are charged. */
  lemma DuplicateLinesAccepted(s: Store, caller: User, restaurantId: Id, line: OrderLine, now: int)
    requires restaurantId in s.restaurants && Orderable(s, restaurantId, line.menuId)
    requires FitsInteger(line.quantity)
    ensures PlaceOrder(s, caller, OrderCreate(restaurantId, [line, line]), now).result.Ok?
    ensures PlaceOrder(s, caller, OrderCreate(restaurantId, [line, line]), now).result.value.totalAmount
            == 2 * (s.menus[line.menuId].price * line.quantity)
  {
    var lines := [line, line];
    var cost := s.menus[line.menuId].price * line.quantity;
    assert AllOrderable(s, restaurantId, lines);
    assert lines[1..] == [line] && lines[1..][1..] == [];
    assert LinesTotal(lines[1..], s.menus) == cost + LinesTotal([], s.menus);
    assert LinesTotal(lines, s.menus) == cost + cost;
  }

  /** On a valid store both copies of a repeated line become items. */
  lemma DuplicateLinesStored(s: Store, caller: User, restaurantId: Id, line: OrderLine, now: int)
    requires s.Valid()
    requires restaurantId in s.restaurants && Orderable(s, restaurantId, line.menuId)
    requires FitsInteger(line.quantity)
    ensures |PlaceOrder(s, caller, OrderCreate(restaurantId, [line, line]), now).store.orderItems|
            == |s.orderItems| + 2
  {
    var payload := OrderCreate(restaurantId, [line, line]);
    assert AllOrderable(s, restaurantId, payload.items);
    assert QuantitiesFit(payload.items);
    assert PlaceOrder(s, caller, payload, now) == Commit(s, caller, payload, now);
    PlacedItemCount(s, caller, payload, now);
  }

  /** A line whose quantity does not fit the column fails the whole
      placement with 500, however valid the rest of the request is, and
      nothing is written. */
  lemma OversizedQuantityRefused(s: Store, caller: User, restaurantId: Id, lines: seq<OrderLine>, line: OrderLine, now: int)
    requires restaurantId in s.restaurants
    requires AllOrderable(s, restaurantId, lines) && Orderable(s, restaurantId, line.menuId)
    requires !FitsInteger(line.quantity)
    ensures PlaceOrder(s, caller, OrderCreate(restaurantId, lines + [line]), now) == Fail(s, ServerError, OrderFailed)
  {
    var all := lines + [line];
    assert all[|lines|] == line;
    assert !QuantitiesFit(all);
    assert AllOrderable(s, restaurantId, all) by {
      forall i | 0 <= i < |all|
        ensures Orderable(s, restaurantId, all[i].menuId)
      {
        if i < |lines| { assert all[i] == lines[i]; }
      }
    }
  }

  /** The caller's own orders, and only those. */
  function GetMyOrders(s: Store, caller: User): (r: map<Id, Order>)
    ensures forall k :: k in r <==> k in s.orders && s.orders[k].userId == caller.id
    ensures forall k :: k in r ==> r[k] == s.orders[k]
  {
    map k | k in s.orders && s.orders[k].userId == caller.id :: s.orders[k]
  }

  /** An order is visible to its owner and to admins (role compared ignoring
      case). */
  function GetOrderDetail(s: Store, caller: User, id: Id): (r: Result<Order>)
    ensures id !in s.orders ==> r.Err? && r.error.code == NotFound
    ensures id in s.orders && s.orders[id].userId != caller.id && !IsAdminIgnoringCase(caller.role) ==>
      r.Err? && r.error.code == Forbidden
    ensures r.Ok? <==> id in s.orders && (s.orders[id].userId == caller.id || IsAdminIgnoringCase(caller.role))
    ensures r.Ok? ==> r.value == s.orders[id]
  {
    if id !in s.orders then Err(HttpError(NotFound, "Order not found"))
    else if s.orders[id].userId != caller.id && !IsAdminIgnoringCase(caller.role) then
      Err(HttpError(Forbidden, "Access denied"))
    else Ok(s.orders[id])
  }

  /** Admins may set any status text on an existing order; nothing else
      about the order or the store changes. */
  function UpdateOrderStatus(s: Store, caller: User, id: Id, status: string): (r: Reply<Order>)
    ensures !IsAdminIgnoringCase(caller.role) ==> r == Fail(s, Forbidden, "Admin access required")
    ensures IsAdminIgnoringCase(caller.role) && id !in s.orders ==> r == Fail(s, NotFound, "Order not found")
    ensures r.result.Ok? <==> IsAdminIgnoringCase(caller.role) && id in s.orders
    ensures r.result.Ok? ==>
      && r.result.value == s.orders[id].(status := status)
      && r.store == s.(orders := s.orders[id := r.result.value])
  {
    if !IsAdminIgnoringCase(caller.role) then Fail(s, Forbidden, "Admin access required")
    else if id !in s.orders then Fail(s, NotFound, "Order not found")
    else
      var o := s.orders[id].(status := status);
      Reply(Ok(o), s.(orders := s.orders[id := o]))
  }

  /** An order placed by a stored user keeps every reference resolved: the
      order names its owner and its restaurant, and each new item names the
      order and a stored menu. */
  lemma PlacedKeepsLinked(s: Store, caller: User, payload: OrderCreate, now: int)
    requires s.Linked() && caller.id in s.users
    ensures PlaceOrder(s, caller, payload, now).store.Linked()
  {
    if PlaceOrder(s, caller, payload, now).result.Ok? {
      NewItemsFresh(s, payload);
      NewItemsMenus(s, payload);
      OrderAdded(s, NewOrder(s, caller, payload, now), NewItems(s, payload), s.nextId + 1 + |payload.items|);
    }
  }

  /** The order just placed is what its owner reads back by id, and it joins
      the owner's list of orders. */
  lemma PlacedOrderVisible(s: Store, caller: User, payload: OrderCreate, now: int)
    requires PlaceOrder(s, caller, payload, now).result.Ok?
    ensures var r := PlaceOrder(s, caller, payload, now);
      GetOrderDetail(r.store, caller, s.nextId) == Ok(r.result.value)
    ensures var r := PlaceOrder(s, caller, payload, now);
      s.nextId in GetMyOrders(r.store, caller) && GetMyOrders(r.store, caller)[s.nextId] == r.result.value
  {
  }

  /** After a status update, every reader allowed to see the order reads the
      new status, with the rest of the order unchanged. */
  lemma UpdatedStatusRead(s: Store, caller: User, id: Id, status: string, reader: User)
    requires UpdateOrderStatus(s, caller, id, status).result.Ok?
    requires s.orders[id].userId == reader.id || IsAdminIgnoringCase(reader.role)
    ensures GetOrderDetail(UpdateOrderStatus(s, caller, id, status).store, reader, id)
            == Ok(s.orders[id].(status := status))
  {
  }

  /** A status update rewrites one order in place: validity and references
      are kept. */
  lemma UpdateOrderStatusKeepsInvariants(s: Store, caller: User, id: Id, status: string)
    ensures s.Valid() ==> UpdateOrderStatus(s, caller, id, status).store.Valid()
    ensures s.Linked() ==> UpdateOrderStatus(s, caller, id, status).store.Linked()
  {
    if UpdateOrderStatus(s, caller, id, status).result.Ok? {
      OrderReplaced(s, id, s.orders[id].(status := status));
    }
  }
}
