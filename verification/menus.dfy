/** The menu endpoints. Writes require a role equal to "admin" ignoring
    case; listing a restaurant's menu is public. */
module Menus {
  import opened Common
  import opened Store

  datatype MenuCreate = MenuCreate(restaurantId: Id, name: string, price: Paise, isAvailable: bool)

  datatype MenuUpdate = MenuUpdate(name: Patch<string>, price: Patch<Paise>, isAvailable: Patch<bool>)

  function CreateMenu(s: Store, caller: User, payload: MenuCreate): (r: Reply<Menu>)
    ensures !IsAdminIgnoringCase(caller.role) ==> r == Fail(s, Forbidden, "Admin access required")
    ensures IsAdminIgnoringCase(caller.role) && payload.restaurantId !in s.restaurants ==>
      r == Fail(s, NotFound, "Restaurant not found")
    ensures r.result.Ok? <==> IsAdminIgnoringCase(caller.role) && payload.restaurantId in s.restaurants
    ensures r.result.Ok? ==>
      var m := r.result.value;
      && m == Menu(m.id, payload.restaurantId, payload.name, payload.price, payload.isAvailable)
      && r.store == s.(menus := s.menus[m.id := m], nextId := s.nextId + 1)
    ensures r.result.Ok? && s.Valid() ==>
      r.result.value.id !in s.menus && |r.store.menus| == |s.menus| + 1 && r.store.Valid()
  {
    if !IsAdminIgnoringCase(caller.role) then Fail(s, Forbidden, "Admin access required")
    else if payload.restaurantId !in s.restaurants then Fail(s, NotFound, "Restaurant not found")
    else
      var m := Menu(s.nextId, payload.restaurantId, payload.name, payload.price, payload.isAvailable);
      Reply(Ok(m), s.(menus := s.menus[m.id := m], nextId := s.nextId + 1))
  }

  /** Every menu of the restaurant, available or not. */
  function GetMenuByRestaurant(s: Store, restaurantId: Id): (r: map<Id, Menu>)
    ensures forall k :: k in r <==> k in s.menus && s.menus[k].restaurantId == restaurantId
    ensures forall k :: k in r ==> r[k] == s.menus[k]
  {
    map k | k in s.menus && s.menus[k].restaurantId == restaurantId :: s.menus[k]
  }

  function Patched(m: Menu, p: MenuUpdate): (r: Menu)
    ensures r.id == m.id && r.restaurantId == m.restaurantId
    ensures p.name.Unset? ==> r.name == m.name
    ensures p.price.Unset? ==> r.price == m.price
    ensures p.isAvailable.Unset? ==> r.isAvailable == m.isAvailable
    ensures p.name.Given? ==> r.name == p.name.value
    ensures p.price.Given? ==> r.price == p.price.value
    ensures p.isAvailable.Given? ==> r.isAvailable == p.isAvailable.value
  {
    m.(name := Apply(p.name, m.name),
       price := Apply(p.price, m.price),
       isAvailable := Apply(p.isAvailable, m.isAvailable))
  }

  /** Overwrites the supplied fields of one menu. Order items keep their own
      copy of the price, so no `price_at_order` moves. */
  function UpdateMenu(s: Store, caller: User, id: Id, payload: MenuUpdate): (r: Reply<Menu>)
    ensures !IsAdminIgnoringCase(caller.role) ==> r == Fail(s, Forbidden, "Admin access required")
    ensures IsAdminIgnoringCase(caller.role) && id !in s.menus ==> r == Fail(s, NotFound, "Menu item not found")
    ensures r.result.Ok? <==> IsAdminIgnoringCase(caller.role) && id in s.menus
    ensures r.result.Ok? ==>
      && r.result.value == Patched(s.menus[id], payload)
      && r.store == s.(menus := s.menus[id := r.result.value])
    ensures r.store.orderItems == s.orderItems && r.store.orders == s.orders
  {
    if !IsAdminIgnoringCase(caller.role) then Fail(s, Forbidden, "Admin access required")
    else if id !in s.menus then Fail(s, NotFound, "Menu item not found")
    else
      var m := Patched(s.menus[id], payload);
      Reply(Ok(m), s.(menus := s.menus[id := m]))
  }

  /** Deletes a menu. One that an order item still refers to cannot be
      deleted: the failed commit is answered 500 with nothing changed. */
  function DeleteMenu(s: Store, caller: User, id: Id): (r: Reply<string>)
    ensures !IsAdminIgnoringCase(caller.role) ==> r == Fail(s, Forbidden, "Admin access required")
    ensures IsAdminIgnoringCase(caller.role) && id !in s.menus ==> r == Fail(s, NotFound, "Menu item not found")
    ensures IsAdminIgnoringCase(caller.role) && id in s.menus && MenuReferenced(s, id) ==>
      r == Fail(s, ServerError, InternalError)
    ensures r.result.Ok? <==> IsAdminIgnoringCase(caller.role) && id in s.menus && !MenuReferenced(s, id)
    ensures r.result.Ok? ==> r.store == s.(menus := s.menus - {id})
  {
    if !IsAdminIgnoringCase(caller.role) then Fail(s, Forbidden, "Admin access required")
    else if id !in s.menus then Fail(s, NotFound, "Menu item not found")
    else if MenuReferenced(s, id) then Fail(s, ServerError, InternalError)
    else Reply(Ok("Menu item deleted successfully"), s.(menus := s.menus - {id}))
  }

  /** A created menu is listed under its restaurant, as created. */
  lemma CreatedMenuListed(s: Store, caller: User, payload: MenuCreate)
    requires CreateMenu(s, caller, payload).result.Ok?
    ensures var r := CreateMenu(s, caller, payload);
      && r.result.value.id in GetMenuByRestaurant(r.store, payload.restaurantId)
      && GetMenuByRestaurant(r.store, payload.restaurantId)[r.result.value.id] == r.result.value
  {
  }

  /** An updated menu is listed under its (unchanged) restaurant in its
      patched form. */
  lemma UpdatedMenuListed(s: Store, caller: User, id: Id, payload: MenuUpdate)
    requires UpdateMenu(s, caller, id, payload).result.Ok?
    ensures var r := UpdateMenu(s, caller, id, payload);
      && id in GetMenuByRestaurant(r.store, s.menus[id].restaurantId)
      && GetMenuByRestaurant(r.store, s.menus[id].restaurantId)[id] == Patched(s.menus[id], payload)
  {
  }

  /** A deleted menu is no longer listed under any restaurant. */
  lemma DeletedMenuUnlisted(s: Store, caller: User, id: Id, restaurantId: Id)
    requires DeleteMenu(s, caller, id).result.Ok?
    ensures id !in GetMenuByRestaurant(DeleteMenu(s, caller, id).store, restaurantId)
  {
  }

  /** A new menu belongs to a stored restaurant, so references stay
      resolved. */
  lemma CreateMenuKeepsLinked(s: Store, caller: User, payload: MenuCreate)
    requires s.Linked()
    ensures CreateMenu(s, caller, payload).store.Linked()
  {
  }

  /** An update rewrites one menu in place without moving it to another
      restaurant: validity and references are kept. */
  lemma UpdateMenuKeepsInvariants(s: Store, caller: User, id: Id, payload: MenuUpdate)
    ensures s.Valid() ==> UpdateMenu(s, caller, id, payload).store.Valid()
    ensures s.Linked() ==> UpdateMenu(s, caller, id, payload).store.Linked()
  {
    if UpdateMenu(s, caller, id, payload).result.Ok? {
      MenuReplaced(s, id, Patched(s.menus[id], payload));
    }
  }

  /** A delete keeps the store valid, and since a menu that an order item
      refers to is refused, no item is left without its menu. */
  lemma DeleteMenuKeepsInvariants(s: Store, caller: User, id: Id)
    ensures s.Valid() ==> DeleteMenu(s, caller, id).store.Valid()
    ensures s.Linked() ==> DeleteMenu(s, caller, id).store.Linked()
  {
    MenuRemoved(s, id);
  }
}
